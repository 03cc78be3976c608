/** Heartbeats of collection devices and the alerts for their silences. */
module Devices {
  import opened Base
  import opened Batches

  const SILENCE := 90 * SECOND

  datatype Device = Device(lastSeen: Option<int>, everOnline: bool, episode: nat, notified: nat, revoked: bool)

  /** A notification. Its dedupe key is the device with a number; `beat` is the heartbeat the silence began
      with, which no table stores. */
  datatype Alert = Alert(device: nat, number: nat, at: int, beat: nat)

  /** The tables, and the instants of all heartbeats, which no table stores. */
  datatype Fleet = Fleet(now: int, devices: seq<Device>, alerts: seq<Alert>, beats: seq<seq<int>>)

  const EMPTY := Fleet(0, [], [], [])

  predicate NeedsNotification(episode: nat, notified: nat) {
    notified < episode + 1
  }

  predicate Silent(d: Device, now: int) {
    d.lastSeen.Some? && d.lastSeen.value <= now - SILENCE
  }

  // ---------------------------------------------------------------------------
  // Calls
  // ---------------------------------------------------------------------------

  function Bind(s: Fleet): Fleet {
    s.(devices := s.devices + [Device(None, false, 0, 0, false)], beats := s.beats + [[]])
  }

  function Revoke(s: Fleet, d: nat): Fleet {
    if d < |s.devices| then s.(devices := s.devices[d := s.devices[d].(revoked := true)]) else s
  }

  function Heartbeat(s: Fleet, d: nat, appVersion: string): Result<Fleet> {
    if |appVersion| > 64 then Err(Validation)
    else if d >= |s.devices| || d >= |s.beats| || s.devices[d].revoked then Err(DeviceUnauthorized)
    else
      var row := s.devices[d];
      var episode := if row.everOnline && Silent(row, s.now) then row.episode + 1 else row.episode;
      Ok(s.(devices := s.devices[d := row.(lastSeen := Some(s.now), everOnline := true, episode := episode)],
            beats := s.beats[d := s.beats[d] + [s.now]]))
  }

  predicate HasNumber(alerts: seq<Alert>, d: nat, number: nat) {
    exists k :: 0 <= k < |alerts| && alerts[k].device == d && alerts[k].number == number
  }

  /** The transaction of one candidate; a device heard of or revoked since the scan is an error. */
  function DetectOne(s: Fleet, d: nat): Result<Fleet> {
    if d >= |s.devices| || d >= |s.beats| || s.devices[d].revoked || !Silent(s.devices[d], s.now) then Err(NotFound)
    else
      var row := s.devices[d];
      if !NeedsNotification(row.episode, row.notified) then Ok(s)
      else
        var next := row.episode + 1;
        var alert := Alert(d, next, s.now, if s.beats[d] == [] then 0 else |s.beats[d]| - 1);
        Ok(s.(devices := s.devices[d := row.(notified := next)],
              alerts := if HasNumber(s.alerts, d, next) then s.alerts else s.alerts + [alert]))
  }

  // ---------------------------------------------------------------------------
  // Runs
  // ---------------------------------------------------------------------------

  datatype Move = BindMove | RevokeMove(d: nat) | HeartbeatMove(d: nat, appVersion: string) | DetectMove(d: nat)

  datatype Call = Call(at: int, move: Move)

  function Apply(s: Fleet, move: Move): Fleet {
    match move
    case BindMove => Bind(s)
    case RevokeMove(d) => Revoke(s, d)
    case HeartbeatMove(d, appVersion) => (match Heartbeat(s, d, appVersion) case Ok(s') => s' case Err(_) => s)
    case DetectMove(d) => (match DetectOne(s, d) case Ok(s') => s' case Err(_) => s)
  }

  function Next(s: Fleet, c: Call): Fleet {
    Apply(s.(now := c.at), c.move)
  }

  function Run(s: Fleet, trace: seq<Call>): Fleet {
    if trace == [] then s else Next(Run(s, trace[..|trace| - 1]), trace[|trace| - 1])
  }

  /** The clock never goes back. */
  predicate Orderly(from: int, trace: seq<Call>) {
    && (forall i :: 0 <= i < |trace| ==> from <= trace[i].at)
    && (forall i, j :: 0 <= i < j < |trace| ==> trace[i].at <= trace[j].at)
  }

  function EndTime(from: int, trace: seq<Call>): int {
    if trace == [] then from else trace[|trace| - 1].at
  }

  ghost predicate Reachable(s: Fleet) {
    exists trace :: Orderly(EMPTY.now, trace) && Run(EMPTY, trace) == s
  }

  // ---------------------------------------------------------------------------
  // What every run keeps
  // ---------------------------------------------------------------------------

  /** How many silences of at least 90 seconds a later heartbeat ended. */
  function Gaps(beats: seq<int>): nat {
    if |beats| < 2 then 0
    else
      var n := |beats| - 1;
      Gaps(beats[..n]) + (if beats[n - 1] <= beats[n] - SILENCE then 1 else 0)
  }

  lemma {:induction false} GapsGrow(beats: seq<int>, k: nat)
    requires k <= |beats|
    ensures Gaps(beats[..k]) <= Gaps(beats)
    ensures 0 < k < |beats| && beats[k - 1] <= beats[k] - SILENCE ==> Gaps(beats[..k]) < Gaps(beats)
  {
    if k == |beats| {
      assert beats[..k] == beats;
    } else {
      var n := |beats| - 1;
      assert beats[..n][..k] == beats[..k];
      GapsGrow(beats[..n], k);
      if k == n {
        assert beats[..n][..n] == beats[..n];
      }
    }
  }

  predicate DeviceOk(d: Device, beats: seq<int>, now: int) {
    && d.everOnline == d.lastSeen.Some? == (beats != [])
    && (beats != [] ==> d.lastSeen == Some(beats[|beats| - 1]))
    && d.episode == Gaps(beats) && d.notified <= d.episode + 1
    && (forall i :: 0 <= i < |beats| ==> beats[i] <= now)
  }

  /** The alert was sent in the silence after its heartbeat, and numbered by the silences ended before. */
  predicate AlertOk(a: Alert, d: Device, beats: seq<int>, now: int) {
    && a.beat < |beats| && beats[a.beat] <= a.at - SILENCE && a.at <= now
    && (a.beat + 1 < |beats| ==> a.at <= beats[a.beat + 1])
    && a.number == Gaps(beats[..a.beat + 1]) + 1 && a.number <= d.notified
  }

  ghost predicate FleetOk(s: Fleet) {
    && |s.beats| == |s.devices|
    && (forall d :: 0 <= d < |s.devices| ==> DeviceOk(s.devices[d], s.beats[d], s.now))
    && (forall k :: 0 <= k < |s.alerts| ==>
          && s.alerts[k].device < |s.devices|
          && AlertOk(s.alerts[k], s.devices[s.alerts[k].device], s.beats[s.alerts[k].device], s.now))
    && (forall k, l :: 0 <= k < l < |s.alerts| ==>
          s.alerts[k].device != s.alerts[l].device || s.alerts[k].number != s.alerts[l].number)
    && (forall d :: 0 <= d < |s.devices| && s.devices[d].notified > 0 ==>
          HasNumber(s.alerts, d, s.devices[d].notified))
  }

  lemma AlertAfterBeat(s: Fleet, d: nat, appVersion: string, k: nat)
    requires FleetOk(s) && Heartbeat(s, d, appVersion).Ok? && k < |s.alerts|
    ensures var s', a := Heartbeat(s, d, appVersion).value, s.alerts[k];
            s'.alerts == s.alerts && AlertOk(a, s'.devices[a.device], s'.beats[a.device], s'.now)
  {
    var s', a := Heartbeat(s, d, appVersion).value, s.alerts[k];
    assert AlertOk(a, s.devices[a.device], s.beats[a.device], s.now);
    if a.device == d {
      assert s'.beats[d][..a.beat + 1] == s.beats[d][..a.beat + 1];
    }
  }

  lemma HeartbeatKeeps(s: Fleet, d: nat, appVersion: string)
    requires FleetOk(s) && Heartbeat(s, d, appVersion).Ok?
    ensures FleetOk(Heartbeat(s, d, appVersion).value)
  {
    hide AlertOk;
    var s' := Heartbeat(s, d, appVersion).value;
    assert DeviceOk(s.devices[d], s.beats[d], s.now);
    assert s'.beats[d][..|s.beats[d]|] == s.beats[d];
    forall k | 0 <= k < |s'.alerts|
      ensures AlertOk(s'.alerts[k], s'.devices[s'.alerts[k].device], s'.beats[s'.alerts[k].device], s'.now)
    {
      AlertAfterBeat(s, d, appVersion, k);
    }
    forall e | 0 <= e < |s'.devices| && s'.devices[e].notified > 0
      ensures HasNumber(s'.alerts, e, s'.devices[e].notified)
    {
      assert HasNumber(s.alerts, e, s.devices[e].notified);
    }
  }

  /** The next number of a device is not taken, so the insert never meets a conflict. */
  lemma NumberIsFree(s: Fleet, d: nat)
    requires FleetOk(s) && d < |s.devices| && s.devices[d].notified <= s.devices[d].episode
    ensures !HasNumber(s.alerts, d, s.devices[d].episode + 1)
  {
    forall k | 0 <= k < |s.alerts| && s.alerts[k].device == d
      ensures s.alerts[k].number != s.devices[d].episode + 1
    {
      assert AlertOk(s.alerts[k], s.devices[d], s.beats[d], s.now);
    }
  }

  /** The row and the alert that `DetectOne` writes. */
  function Alerted(s: Fleet, d: nat): Fleet
    requires d < |s.devices| && d < |s.beats| && s.beats[d] != []
  {
    var next := s.devices[d].episode + 1;
    s.(devices := s.devices[d := s.devices[d].(notified := next)],
       alerts := s.alerts + [Alert(d, next, s.now, |s.beats[d]| - 1)])
  }

  lemma AlertedOk(s: Fleet, d: nat, k: nat)
    requires FleetOk(s) && d < |s.devices| && Silent(s.devices[d], s.now) && s.beats[d] != []
    requires s.devices[d].notified <= s.devices[d].episode && k <= |s.alerts|
    ensures var s' := Alerted(s, d);
            && s'.alerts[k].device < |s.devices|
            && AlertOk(s'.alerts[k], s'.devices[s'.alerts[k].device], s'.beats[s'.alerts[k].device], s'.now)
  {
    assert DeviceOk(s.devices[d], s.beats[d], s.now);
    assert s.beats[d][..|s.beats[d]|] == s.beats[d];
    if k < |s.alerts| {
      assert AlertOk(s.alerts[k], s.devices[s.alerts[k].device], s.beats[s.alerts[k].device], s.now);
    }
  }

  lemma AlertedNumbers(s: Fleet, d: nat)
    requires FleetOk(s) && d < |s.devices| && s.beats[d] != [] && s.devices[d].notified <= s.devices[d].episode
    ensures var s' := Alerted(s, d);
            && (forall k, l :: 0 <= k < l < |s'.alerts| ==>
                  s'.alerts[k].device != s'.alerts[l].device || s'.alerts[k].number != s'.alerts[l].number)
            && (forall e :: 0 <= e < |s'.devices| && s'.devices[e].notified > 0 ==>
                  HasNumber(s'.alerts, e, s'.devices[e].notified))
  {
    var s' := Alerted(s, d);
    NumberIsFree(s, d);
    assert s'.alerts[|s.alerts|].number == s.devices[d].episode + 1;
    forall e | 0 <= e < |s'.devices| && s'.devices[e].notified > 0
      ensures HasNumber(s'.alerts, e, s'.devices[e].notified)
    {
      if e != d {
        var k :| 0 <= k < |s.alerts| && s.alerts[k].device == e && s.alerts[k].number == s.devices[e].notified;
        assert s'.alerts[k] == s.alerts[k];
      }
    }
  }

  lemma AlertedKeeps(s: Fleet, d: nat)
    requires FleetOk(s) && d < |s.devices| && Silent(s.devices[d], s.now) && s.beats[d] != []
    requires s.devices[d].notified <= s.devices[d].episode
    ensures FleetOk(Alerted(s, d))
  {
    var s' := Alerted(s, d);
    assert DeviceOk(s.devices[d], s.beats[d], s.now);
    AlertedNumbers(s, d);
    forall k: nat | k < |s'.alerts|
      ensures s'.alerts[k].device < |s'.devices|
      ensures AlertOk(s'.alerts[k], s'.devices[s'.alerts[k].device], s'.beats[s'.alerts[k].device], s'.now)
    {
      AlertedOk(s, d, k);
    }
  }

  lemma DetectOneKeeps(s: Fleet, d: nat)
    requires FleetOk(s) && DetectOne(s, d).Ok?
    ensures s.beats[d] != []
    ensures DetectOne(s, d).value == if s.devices[d].notified <= s.devices[d].episode then Alerted(s, d) else s
    ensures FleetOk(DetectOne(s, d).value)
  {
    var row := s.devices[d];
    assert DeviceOk(row, s.beats[d], s.now);
    if NeedsNotification(row.episode, row.notified) {
      NumberIsFree(s, d);
      AlertedKeeps(s, d);
    }
  }

  lemma TickKeeps(s: Fleet, at: int)
    requires FleetOk(s) && s.now <= at
    ensures FleetOk(s.(now := at))
  {
  }

  lemma NextKeeps(s: Fleet, c: Call)
    requires FleetOk(s) && s.now <= c.at
    ensures FleetOk(Next(s, c)) && Next(s, c).now == c.at
  {
    var s0 := s.(now := c.at);
    TickKeeps(s, c.at);
    match c.move {
      case BindMove => BindKeeps(s0);
      case RevokeMove(d) => RevokeKeeps(s0, d);
      case HeartbeatMove(d, appVersion) => if Heartbeat(s0, d, appVersion).Ok? { HeartbeatKeeps(s0, d, appVersion); }
      case DetectMove(d) => if DetectOne(s0, d).Ok? { DetectOneKeeps(s0, d); }
    }
  }

  lemma BindKeeps(s: Fleet)
    requires FleetOk(s)
    ensures FleetOk(Bind(s))
  {
  }

  lemma RevokeKeeps(s: Fleet, d: nat)
    requires FleetOk(s)
    ensures FleetOk(Revoke(s, d))
  {
  }

  lemma {:induction false} RunKeeps(s: Fleet, trace: seq<Call>)
    requires FleetOk(s) && Orderly(s.now, trace)
    ensures FleetOk(Run(s, trace)) && Run(s, trace).now == EndTime(s.now, trace)
  {
    if trace != [] {
      var n := |trace| - 1;
      RunKeeps(s, trace[..n]);
      NextKeeps(Run(s, trace[..n]), trace[n]);
    }
  }

  lemma ReachableOk(s: Fleet)
    requires Reachable(s)
    ensures FleetOk(s)
  {
    var trace :| Orderly(EMPTY.now, trace) && Run(EMPTY, trace) == s;
    RunKeeps(EMPTY, trace);
  }

  // ---------------------------------------------------------------------------
  // One alert for a silence
  // ---------------------------------------------------------------------------

  /** Two alerts of a device differ in silence and in number. */
  lemma AlertsDiffer(s: Fleet, k: nat, l: nat)
    requires FleetOk(s) && k < |s.alerts| && l < |s.alerts| && s.alerts[k].device == s.alerts[l].device
    ensures s.alerts[k].beat == s.alerts[l].beat || s.alerts[k].number == s.alerts[l].number ==> k == l
  {
    var d := s.alerts[k].device;
    assert AlertOk(s.alerts[k], s.devices[d], s.beats[d], s.now);
    assert AlertOk(s.alerts[l], s.devices[d], s.beats[d], s.now);
  }

  /** Every alert belongs to a silence of at least 90 seconds, no silence has two, and no two silences share
      a dedupe key. */
  lemma OneAlertPerSilence(s: Fleet, k: nat, l: nat)
    requires Reachable(s) && k < |s.alerts| && l < |s.alerts|
    ensures var a := s.alerts[k];
            && a.device < |s.beats| && a.beat < |s.beats[a.device]|
            && s.beats[a.device][a.beat] + SILENCE <= a.at
            && (a.beat + 1 < |s.beats[a.device]| ==> a.at <= s.beats[a.device][a.beat + 1])
    ensures s.alerts[k].device == s.alerts[l].device && s.alerts[k].beat == s.alerts[l].beat ==> k == l
    ensures s.alerts[k].device == s.alerts[l].device && s.alerts[k].number == s.alerts[l].number ==> k == l
  {
    ReachableOk(s);
    assert AlertOk(s.alerts[k], s.devices[s.alerts[k].device], s.beats[s.alerts[k].device], s.now);
    if s.alerts[k].device == s.alerts[l].device {
      AlertsDiffer(s, k, l);
    }
  }

  /** Whether the silence that lasts since the last heartbeat of the device was reported. */
  ghost predicate Reported(s: Fleet, d: nat) {
    d < |s.beats| && exists k :: 0 <= k < |s.alerts| && s.alerts[k].device == d && s.alerts[k].beat + 1 == |s.beats[d]|
  }

  /** A scan that gets to a silent device leaves its present silence reported; the number in the device row
      tells whether it was. */
  lemma ScannedIsReported(s: Fleet, d: nat)
    requires FleetOk(s) && DetectOne(s, d).Ok?
    ensures Reported(DetectOne(s, d).value, d)
    ensures DetectOne(s, d).value.alerts == s.alerts <==> Reported(s, d)
  {
    var s' := DetectOne(s, d).value;
    DetectOneKeeps(s, d);
    ReportedIsNotified(s, d);
    ReportedIsNotified(s', d);
  }

  lemma ReportedIsNotified(s: Fleet, d: nat)
    requires FleetOk(s) && d < |s.devices| && s.beats[d] != []
    ensures Reported(s, d) <==> s.devices[d].notified == s.devices[d].episode + 1
  {
    var row, beats := s.devices[d], s.beats[d];
    assert DeviceOk(row, beats, s.now);
    assert beats[..|beats|] == beats;
    if k :| 0 <= k < |s.alerts| && s.alerts[k].device == d && s.alerts[k].beat + 1 == |beats| {
      assert AlertOk(s.alerts[k], row, beats, s.now);
    }
    if row.notified == row.episode + 1 {
      var k :| 0 <= k < |s.alerts| && s.alerts[k].device == d && s.alerts[k].number == row.notified;
      var a := s.alerts[k];
      assert AlertOk(a, row, beats, s.now);
      GapsGrow(beats, a.beat + 1);
    }
  }

  /** Alerts are only ever added. */
  lemma {:induction false} AlertsStay(s: Fleet, trace: seq<Call>)
    ensures s.alerts <= Run(s, trace).alerts && |s.beats| <= |Run(s, trace).beats|
    ensures forall d :: 0 <= d < |s.beats| ==> s.beats[d] <= Run(s, trace).beats[d]
  {
    if trace != [] {
      AlertsStay(s, trace[..|trace| - 1]);
    }
  }

  /** Exactly one alert reports the silence of the device after that heartbeat. */
  ghost predicate ReportedOnce(s: Fleet, d: nat, beat: int) {
    && (exists k :: 0 <= k < |s.alerts| && s.alerts[k].device == d && s.alerts[k].beat == beat)
    && (forall k, l :: 0 <= k < l < |s.alerts| && s.alerts[k].device == s.alerts[l].device == d ==>
          s.alerts[k].beat != s.alerts[l].beat)
  }

  lemma ReportStays(s: Fleet, trace: seq<Call>, d: nat)
    requires FleetOk(s) && Orderly(s.now, trace) && Reported(s, d)
    ensures ReportedOnce(Run(s, trace), d, |s.beats[d]| - 1)
  {
    AlertsStay(s, trace);
    RunKeeps(s, trace);
    var s' := Run(s, trace);
    var k :| 0 <= k < |s.alerts| && s.alerts[k].device == d && s.alerts[k].beat + 1 == |s.beats[d]|;
    assert s'.alerts[k] == s.alerts[k];
    forall i, j | 0 <= i < j < |s'.alerts| && s'.alerts[i].device == s'.alerts[j].device == d
      ensures s'.alerts[i].beat != s'.alerts[j].beat
    {
      AlertsDiffer(s', i, j);
    }
  }

  /** If a scan gets to a device during a silence of at least 90 seconds, exactly one alert reports that
      silence in every later state, however heartbeats and scans interleave. */
  lemma ScannedSilence(s: Fleet, scan: Call, trace: seq<Call>)
    requires Reachable(s) && s.now <= scan.at && Orderly(scan.at, trace)
    requires scan.move.DetectMove? && DetectOne(s.(now := scan.at), scan.move.d).Ok?
    ensures scan.move.d < |s.beats| && s.beats[scan.move.d] != []
    ensures ReportedOnce(Run(Next(s, scan), trace), scan.move.d, |s.beats[scan.move.d]| - 1)
  {
    hide FleetOk, Orderly, DetectOne, ReportedOnce;
    ReachableOk(s);
    var s0 := s.(now := scan.at);
    TickKeeps(s, scan.at);
    DetectOneKeeps(s0, scan.move.d);
    ScannedIsReported(s0, scan.move.d);
    ReportStays(Next(s, scan), trace, scan.move.d);
  }

  /** A scan gets to a device exactly when it is bound and was silent for 90 seconds. */
  lemma WhoIsScanned(s: Fleet, d: nat)
    requires Reachable(s)
    ensures |s.beats| == |s.devices|
    ensures DetectOne(s, d).Ok? <==>
              d < |s.beats| && !s.devices[d].revoked && s.beats[d] != []
              && s.beats[d][|s.beats[d]| - 1] + SILENCE <= s.now
  {
    ReachableOk(s);
    if d < |s.devices| {
      assert DeviceOk(s.devices[d], s.beats[d], s.now);
    }
  }

  // ---------------------------------------------------------------------------
  // What each call does to the rows
  // ---------------------------------------------------------------------------

  /** A bound device is heard of now, whatever its state, and nobody else's row changes. */
  lemma HeartbeatEffect(s: Fleet, d: nat, appVersion: string)
    requires Reachable(s)
    ensures Heartbeat(s, d, appVersion).Ok? <==> |appVersion| <= 64 && d < |s.devices| && !s.devices[d].revoked
    ensures Heartbeat(s, d, appVersion).Ok? ==>
              d < |s.beats|
              && var beats := s.beats[d] + [s.now];
              Heartbeat(s, d, appVersion).value
              == s.(devices := s.devices[d := Device(Some(s.now), true, Gaps(beats), s.devices[d].notified, false)],
                    beats := s.beats[d := beats])
  {
    ReachableOk(s);
    if Heartbeat(s, d, appVersion).Ok? {
      HeartbeatKeeps(s, d, appVersion);
      assert DeviceOk(Heartbeat(s, d, appVersion).value.devices[d], s.beats[d] + [s.now], s.now);
    }
  }

  /** A candidate still silent gets one alert for the present silence, numbered by the silences ended before it, unless
      that was reported already. */
  lemma DetectEffect(s: Fleet, d: nat)
    requires Reachable(s) && DetectOne(s, d).Ok?
    ensures d < |s.devices| && d < |s.beats| && s.beats[d] != []
    ensures DetectOne(s, d).value
            == if Reported(s, d) then s
               else s.(devices := s.devices[d := s.devices[d].(notified := Gaps(s.beats[d]) + 1)],
                       alerts := s.alerts + [Alert(d, Gaps(s.beats[d]) + 1, s.now, |s.beats[d]| - 1)])
  {
    ReachableOk(s);
    DetectOneKeeps(s, d);
    ReportedIsNotified(s, d);
    assert DeviceOk(s.devices[d], s.beats[d], s.now);
  }

  /** A device binds as one never heard of; revoking it touches nothing but that it is revoked. */
  lemma BindingEffect(s: Fleet, d: nat)
    requires Reachable(s)
    ensures Bind(s) == s.(devices := s.devices + [Device(None, false, 0, 0, false)], beats := s.beats + [[]])
    ensures |Revoke(s, d).devices| == |s.devices| && Revoke(s, d) == s.(devices := Revoke(s, d).devices)
    ensures forall e :: 0 <= e < |s.devices| ==>
              Revoke(s, d).devices[e] == s.devices[e].(revoked := s.devices[e].revoked || e == d)
  {
  }

  // ---------------------------------------------------------------------------
  // The transactions, statement by statement
  // ---------------------------------------------------------------------------

  predicate Candidate(d: Device, now: int) {
    !d.revoked && d.everOnline && Silent(d, now) && NeedsNotification(d.episode, d.notified)
  }

  /** The devices a scan picks: the candidates, longest silent first, up to the limit. */
  function Scanned(devices: seq<Device>, now: int, limit: int): seq<nat> {
    Scan(LastSeen(devices), Wanted(devices, now), |devices|, limit)
  }

  function LastSeen(devices: seq<Device>): nat -> int {
    (d: nat) => if d < |devices| && devices[d].lastSeen.Some? then devices[d].lastSeen.value else 0
  }

  function Wanted(devices: seq<Device>, now: int): nat -> bool {
    (d: nat) => d < |devices| && Candidate(devices[d], now)
  }

  /** It picks the bound devices silent for 90 seconds whose present silence is not reported, each once, the longest
      silent first, and leaves one out only when the limit is reached by others silent at least as long. */
  lemma ScannedIs(s: Fleet, limit: int)
    requires Reachable(s)
    ensures var items := Scanned(s.devices, s.now, limit);
            && |items| <= BatchLimit(limit)
            && (forall k :: 0 <= k < |items| ==> ToReport(s, items[k]))
            && (forall j, k :: 0 <= j < k < |items| ==>
                  items[j] != items[k]
                  && s.beats[items[j]][|s.beats[items[j]]| - 1] <= s.beats[items[k]][|s.beats[items[k]]| - 1])
            && (forall d: nat :: ToReport(s, d) && d !in items ==>
                  |items| == BatchLimit(limit)
                  && forall k :: 0 <= k < |items| ==>
                       s.beats[items[k]][|s.beats[items[k]]| - 1] <= s.beats[d][|s.beats[d]| - 1])
  {
    ReachableOk(s);
    var items := Scanned(s.devices, s.now, limit);
    var key, wanted := LastSeen(s.devices), Wanted(s.devices, s.now);
    ScanIs(key, wanted, |s.devices|, limit);
    forall d: nat ensures wanted(d) <==> ToReport(s, d)
                  ensures ToReport(s, d) ==> key(d) == s.beats[d][|s.beats[d]| - 1]
    {
      ToReportIs(s, d);
    }
    forall j, k | 0 <= j < k < |items| ensures Before(key, items[j], items[k]) {
    }
    forall d: nat, k | ToReport(s, d) && d !in items && 0 <= k < |items| ensures Before(key, items[k], d) {
      assert wanted(d);
    }
  }

  /** Bound, silent for 90 seconds, and that silence not reported. */
  ghost predicate ToReport(s: Fleet, d: nat) {
    && d < |s.devices| && d < |s.beats| && !s.devices[d].revoked && s.beats[d] != []
    && s.beats[d][|s.beats[d]| - 1] + 90 * SECOND <= s.now && !Reported(s, d)
  }

  lemma ToReportIs(s: Fleet, d: nat)
    requires FleetOk(s)
    ensures d < |s.devices| && Candidate(s.devices[d], s.now) <==> ToReport(s, d)
    ensures ToReport(s, d) ==> s.devices[d].lastSeen == Some(s.beats[d][|s.beats[d]| - 1])
  {
    if d < |s.devices| {
      assert DeviceOk(s.devices[d], s.beats[d], s.now);
      if s.beats[d] != [] {
        ReportedIsNotified(s, d);
      }
    }
  }

  class Monitor {
    var now: int
    var devices: seq<Device>
    var alerts: seq<Alert>
    var beats: seq<seq<int>>

    function View(): Fleet
      reads this
    {
      Fleet(now, devices, alerts, beats)
    }

    ghost predicate Valid()
      reads this
    {
      FleetOk(View())
    }

    constructor ()
      ensures View() == EMPTY && Valid()
    {
      now, devices, alerts, beats := 0, [], [], [];
    }

    /** A heartbeat closes the silence before it, if that was one. */
    method Beat(d: nat, appVersion: string) returns (r: Result<()>)
      requires Valid()
      modifies this`devices, this`beats
      ensures Valid()
      ensures match Heartbeat(old(View()), d, appVersion)
              case Ok(s') => r == Ok(()) && View() == s'
              case Err(e) => r == Err(e) && View() == old(View())
    {
      if Heartbeat(View(), d, appVersion).Ok? { HeartbeatKeeps(View(), d, appVersion); }
      if |appVersion| > 64 { return Err(Validation); }
      if d >= |devices| || devices[d].revoked { return Err(DeviceUnauthorized); }
      if devices[d].everOnline && devices[d].lastSeen.Some? && !(devices[d].lastSeen.value > now - SILENCE) {
        devices := devices[d := devices[d].(episode := devices[d].episode + 1)];
      }
      devices := devices[d := devices[d].(lastSeen := Some(now), everOnline := true)];
      beats := beats[d := beats[d] + [now]];
      return Ok(());
    }

    /** Other callers commit in between. */
    method Interleave(calls: seq<Call>)
      requires Valid() && Orderly(now, calls)
      modifies this
      ensures Valid() && View() == Run(old(View()), calls) && now == EndTime(old(now), calls)
    {
      RunKeeps(View(), calls);
      var s := Run(View(), calls);
      now, devices, alerts, beats := s.now, s.devices, s.alerts, s.beats;
    }

    /** One candidate, looked at again in its own transaction: whether an alert was sent. */
    method NotifyTx(d: nat) returns (r: Result<bool>)
      requires |beats| == |devices|
      modifies this`devices, this`alerts
      ensures match DetectOne(old(View()), d)
              case Ok(s') => r == Ok(s'.alerts != old(alerts)) && View() == s'
              case Err(e) => r == Err(e) && View() == old(View())
    {
      if d >= |devices| || devices[d].revoked || !Silent(devices[d], now) { return Err(NotFound); }
      if !NeedsNotification(devices[d].episode, devices[d].notified) { return Ok(false); }
      var next := devices[d].episode + 1;
      devices := devices[d := devices[d].(notified := next)];
      if HasNumber(alerts, d, next) { return Ok(false); }
      alerts := alerts + [Alert(d, next, now, if beats[d] == [] then 0 else |beats[d]| - 1)];
      return Ok(true);
    }

    /** It leaves the present silence of the device reported. */
    method DetectTx(d: nat) returns (r: Result<bool>)
      requires Valid()
      modifies this`devices, this`alerts
      ensures Valid()
      ensures match DetectOne(old(View()), d)
              case Ok(s') => r == Ok(s'.alerts != old(alerts)) && View() == s' && Reported(View(), d)
              case Err(e) => r == Err(e) && View() == old(View())
    {
      if DetectOne(View(), d).Ok? {
        DetectOneKeeps(View(), d);
        ScannedIsReported(View(), d);
      }
      r := NotifyTx(d);
    }

    /** Candidate `n` of the batch, after what others did since the one before. */
    method DetectNext(ghost start: Fleet, rivals: seq<seq<Call>>, items: seq<nat>, n: nat, count: nat)
      returns (r: Result<()>, total: nat)
      requires FleetOk(start) && n < |items| && items[n] < |start.beats| && Orderly(now, Nth(rivals, n))
      requires Through(start, rivals, items, n, View(), count)
      modifies this
      ensures now == EndTime(old(now), Nth(rivals, n))
      ensures r.Ok? ==> Through(start, rivals, items, n + 1, View(), total)
      ensures r.Err? ==> Stopped(start, rivals, items, n, View(), total)
    {
      hide FleetOk, Orderly, DetectOne;
      var calls := Nth(rivals, n);
      RunKeeps(start, Scans(start.now, rivals, items, n));
      StepIsRun(start, rivals, items, n, View());
      StepIsReported(start, rivals, items, n, View(), Apply(Run(View(), calls), DetectMove(items[n])));
      Interleave(calls);
      var sent := DetectTx(items[n]);
      total := if sent.Ok? && sent.value then count + 1 else count;
      r := if sent.Ok? then Ok(()) else Err(sent.error);
    }

    /** Goes through the candidates one transaction each, others interleaving, up to the first that is no
        longer silent. */
    method DetectAll(items: seq<nat>, rivals: seq<seq<Call>>) returns (r: Result<()>, done: nat, count: nat)
      requires Valid() && OrderlyAll(now, rivals) && forall k :: 0 <= k < |items| ==> items[k] < |beats|
      modifies this
      ensures Valid()
      ensures r.Ok? ==> done == |items| && Through(old(View()), rivals, items, done, View(), count)
      ensures r.Err? ==> done < |items| && Stopped(old(View()), rivals, items, done, View(), count)
    {
      hide FleetOk, Orderly;
      ghost var start := View();
      BatchStarts(start, rivals, items);
      count := 0;
      var rest := rivals;
      for n := 0 to |items|
        invariant OrderlyAll(now, rest) && rest == Drop(rivals, n)
        invariant Through(start, rivals, items, n, View(), count)
      {
        DropOne(rivals, n);
        DropOrderly(now, rest);
        r, count := DetectNext(start, rivals, items, n, count);
        if r.Err? {
          RunKeeps(start, Scans(start.now, rivals, items, n + 1));
          return r, n, count;
        }
        rest := Tail(rest);
      }
      RunKeeps(start, Scans(start.now, rivals, items, |items|));
      return Ok(()), |items|, count;
    }

    /** Scans once, then looks at the candidates again one by one. The batch is a run of what others commit and
        of one detection for each candidate it gets to, and counts the alerts it sent; the first candidate
        that is no longer silent ends it with an error, and all before that one were reported. */
    method DetectOffline(limit: int, rivals: seq<seq<Call>>) returns (r: Result<()>, done: nat, count: nat)
      requires Valid() && OrderlyAll(now, rivals)
      modifies this
      ensures Valid()
      ensures var items := Scanned(old(devices), old(now), limit);
              && |items| <= BatchLimit(limit)
              && if r.Ok? then done == |items| && Through(old(View()), rivals, items, done, View(), count)
                 else done < |items| && Stopped(old(View()), rivals, items, done, View(), count)
    {
      var items := Scanned(devices, now, limit);
      ScanIs(LastSeen(devices), Wanted(devices, now), |devices|, limit);
      r, done, count := DetectAll(items, rivals);
    }
  }

  /** The run of a batch: before each detection what others commit, then the detection at that instant. */
  function Scans(from: int, rivals: seq<seq<Call>>, items: seq<nat>, n: nat): seq<Call>
    requires n <= |items|
    decreases n, 0
  {
    if n == 0 then []
    else
      Until(from, rivals, items, n - 1)
      + [Call(EndTime(EndTime(from, Scans(from, rivals, items, n - 1)), Nth(rivals, n - 1)), DetectMove(items[n - 1]))]
  }

  /** The run up to candidate `n`, what others commit before it included. */
  function Until(from: int, rivals: seq<seq<Call>>, items: seq<nat>, n: nat): seq<Call>
    requires n < |items|
    decreases n, 1
  {
    Scans(from, rivals, items, n) + Nth(rivals, n)
  }

  /** How many of the first `n` detections sent an alert. */
  ghost function Sent(s: Fleet, rivals: seq<seq<Call>>, items: seq<nat>, n: nat): nat
    requires n <= |items|
  {
    if n == 0 then 0
    else
      Sent(s, rivals, items, n - 1)
      + (if Run(s, Scans(s.now, rivals, items, n)).alerts != Run(s, Until(s.now, rivals, items, n - 1)).alerts then 1 else 0)
  }

  /** A batch that got to `n` candidates is a run of what others committed and those detections, and has
      counted the alerts they sent. */
  ghost predicate BatchAt(start: Fleet, rivals: seq<seq<Call>>, items: seq<nat>, n: nat, s: Fleet, count: nat) {
    && n <= |items| && IsRun(start, Scans(start.now, rivals, items, n), s)
    && count == Sent(start, rivals, items, n)
  }

  /** The candidate was heard of, or revoked, before the batch got to it. */
  ghost predicate Heard(start: Fleet, rivals: seq<seq<Call>>, items: seq<nat>, n: nat)
    requires n < |items|
  {
    DetectOne(Run(start, Until(start.now, rivals, items, n)), items[n]).Err?
  }

  /** The batch is through with `n` candidates, all of them reported. */
  ghost predicate Through(start: Fleet, rivals: seq<seq<Call>>, items: seq<nat>, n: nat, s: Fleet, count: nat) {
    BatchAt(start, rivals, items, n, s, count) && AllReported(start, s, items, n)
  }

  /** The batch stopped at candidate `n`, heard of by then, after the ones before it were reported. */
  ghost predicate Stopped(start: Fleet, rivals: seq<seq<Call>>, items: seq<nat>, n: nat, s: Fleet, count: nat) {
    && n < |items| && BatchAt(start, rivals, items, n + 1, s, count) && AllReported(start, s, items, n)
    && Heard(start, rivals, items, n)
  }

  ghost predicate IsRun(start: Fleet, trace: seq<Call>, s: Fleet) {
    Orderly(start.now, trace) && s == Run(start, trace) && s.now == EndTime(start.now, trace)
  }

  ghost predicate AllReported(start: Fleet, s: Fleet, items: seq<nat>, n: nat) {
    n <= |items| && forall k :: 0 <= k < n ==> ReportedSince(start, s, items[k])
  }

  lemma BatchStarts(s: Fleet, rivals: seq<seq<Call>>, items: seq<nat>)
    ensures Through(s, rivals, items, 0, s, 0)
  {
  }

  lemma DropOrderly(from: int, rest: seq<seq<Call>>)
    requires OrderlyAll(from, rest)
    ensures Orderly(from, Head(rest)) && OrderlyAll(EndTime(from, Head(rest)), Tail(rest))
  {
  }

  /** What other callers commit before each transaction of a batch. */
  predicate OrderlyAll(from: int, rivals: seq<seq<Call>>)
    decreases |rivals|
  {
    rivals == [] || (Orderly(from, rivals[0]) && OrderlyAll(EndTime(from, rivals[0]), rivals[1..]))
  }

  /** A silence of the device that lasted at `s` or began since is reported at `s'`. */
  ghost predicate ReportedSince(s: Fleet, s': Fleet, d: nat) {
    d < |s.beats| && exists k :: 0 <= k < |s'.alerts| && s'.alerts[k].device == d && s'.alerts[k].beat + 1 >= |s.beats[d]|
  }

  lemma ReportsStay(start: Fleet, s: Fleet, trace: seq<Call>, items: seq<nat>)
    requires forall k :: 0 <= k < |items| ==> ReportedSince(start, s, items[k])
    ensures forall k :: 0 <= k < |items| ==> ReportedSince(start, Run(s, trace), items[k])
  {
    AlertsStay(s, trace);
    forall k | 0 <= k < |items| ensures ReportedSince(start, Run(s, trace), items[k]) {
      ReportsGrow(start, s, Run(s, trace), items[k]);
    }
  }

  lemma {:induction false} RunConcat(s: Fleet, a: seq<Call>, b: seq<Call>)
    ensures Run(s, a + b) == Run(Run(s, a), b)
  {
    if b == [] {
      assert a + b == a;
    } else {
      RunConcat(s, a, b[..|b| - 1]);
      assert (a + b)[..|a + b| - 1] == a + b[..|b| - 1];
    }
  }

  lemma OrderlyConcat(from: int, a: seq<Call>, b: seq<Call>)
    requires Orderly(from, a) && Orderly(EndTime(from, a), b)
    ensures Orderly(from, a + b) && EndTime(from, a + b) == EndTime(EndTime(from, a), b)
  {
    var all := a + b;
    if a != [] && b != [] {
      assert a[|a| - 1].at <= b[0].at;
    }
    forall i, j | 0 <= i < j < |all| ensures all[i].at <= all[j].at {
      if i < |a| <= j {
        assert a[i].at <= EndTime(from, a) <= b[j - |a|].at;
      }
    }
  }

  lemma RunExtended(s: Fleet, trace: seq<Call>, calls: seq<Call>, step: Call)
    requires Orderly(s.now, trace) && Orderly(EndTime(s.now, trace), calls)
    requires step.at == EndTime(EndTime(s.now, trace), calls)
    ensures var all := trace + calls + [step];
            Orderly(s.now, all) && EndTime(s.now, all) == step.at && Run(s, all) == Next(Run(Run(s, trace), calls), step)
  {
    RunConcat(s, trace, calls);
    OrderlyConcat(s.now, trace, calls);
    OrderlyConcat(s.now, trace + calls, [step]);
    assert (trace + calls + [step])[..|trace + calls|] == trace + calls;
  }

  /** One candidate of the batch: others first, then its own transaction. */
  lemma StepRuns(start: Fleet, trace: seq<Call>, s: Fleet, calls: seq<Call>, move: Move)
    requires Orderly(start.now, trace) && s == Run(start, trace) && s.now == EndTime(start.now, trace)
    requires FleetOk(s) && Orderly(s.now, calls)
    ensures var step := Call(EndTime(s.now, calls), move);
            var all := trace + calls + [step];
            && Run(s, calls).now == step.at
            && Orderly(start.now, all) && EndTime(start.now, all) == step.at
            && Run(start, all) == Apply(Run(s, calls), move)
  {
    var between := Run(s, calls);
    RunKeeps(s, calls);
    RunExtended(start, trace, calls, Call(between.now, move));
    assert between.(now := between.now) == between;
  }

  lemma ApplyGrows(s: Fleet, move: Move)
    ensures s.alerts <= Apply(s, move).alerts && |s.beats| <= |Apply(s, move).beats|
    ensures forall d :: 0 <= d < |s.beats| ==> s.beats[d] <= Apply(s, move).beats[d]
    ensures move.DetectMove? ==> Apply(s, move).now == s.now
  {
  }

  lemma StepReports(start: Fleet, s: Fleet, calls: seq<Call>, move: Move, items: seq<nat>, n: nat)
    requires n <= |items| && forall k :: 0 <= k < n ==> ReportedSince(start, s, items[k])
    ensures forall k :: 0 <= k < n ==> ReportedSince(start, Apply(Run(s, calls), move), items[k])
  {
    ReportsStay(start, s, calls, items[..n]);
    ApplyGrows(Run(s, calls), move);
    forall k | 0 <= k < n ensures ReportedSince(start, Apply(Run(s, calls), move), items[k]) {
      assert items[..n][k] == items[k];
      ReportsGrow(start, Run(s, calls), Apply(Run(s, calls), move), items[k]);
    }
  }

  lemma ReportsGrow(start: Fleet, s: Fleet, s': Fleet, d: nat)
    requires ReportedSince(start, s, d) && s.alerts <= s'.alerts
    ensures ReportedSince(start, s', d)
  {
    var j :| 0 <= j < |s.alerts| && s.alerts[j].device == d && s.alerts[j].beat + 1 >= |start.beats[d]|;
    assert s'.alerts[j] == s.alerts[j];
  }

  lemma BeatsGrow(start: Fleet, trace: seq<Call>, d: nat)
    requires d < |start.beats|
    ensures d < |Run(start, trace).beats| && |start.beats[d]| <= |Run(start, trace).beats[d]|
  {
    AlertsStay(start, trace);
    assert start.beats[d] <= Run(start, trace).beats[d];
  }

  /** Candidate `n`: others first, then its own detection. */
  lemma StepIsRun(start: Fleet, rivals: seq<seq<Call>>, items: seq<nat>, n: nat, s: Fleet)
    requires n < |items| && IsRun(start, Scans(start.now, rivals, items, n), s)
    requires FleetOk(s) && Orderly(s.now, Nth(rivals, n))
    ensures Run(s, Nth(rivals, n)) == Run(start, Until(start.now, rivals, items, n))
    ensures IsRun(start, Scans(start.now, rivals, items, n + 1), Apply(Run(s, Nth(rivals, n)), DetectMove(items[n])))
  {
    var calls, move, trace := Nth(rivals, n), DetectMove(items[n]), Scans(start.now, rivals, items, n);
    RunConcat(start, trace, calls);
    StepRuns(start, trace, s, calls, move);
    ApplyGrows(Run(s, calls), move);
  }

  lemma StepIsReported(start: Fleet, rivals: seq<seq<Call>>, items: seq<nat>, n: nat, s: Fleet, after: Fleet)
    requires n < |items| && items[n] < |start.beats| && AllReported(start, s, items, n)
    requires after == Apply(Run(s, Nth(rivals, n)), DetectMove(items[n]))
    requires after == Run(start, Scans(start.now, rivals, items, n + 1))
    ensures AllReported(start, after, items, n)
    ensures Reported(after, items[n]) ==> AllReported(start, after, items, n + 1)
  {
    StepReports(start, s, Nth(rivals, n), DetectMove(items[n]), items, n);
    BeatsGrow(start, Scans(start.now, rivals, items, n + 1), items[n]);
  }
}
