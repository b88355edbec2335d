/**
 Candidate collection: every device of the filtered list is asked for the
 trace targets matching the spec, and each target found becomes a candidate
 carrying its device, the device's display name and a display name of its own.
 */
module Targets {
  import opened Common

  /** A trace target as the device reports it. */
  datatype Target = Target(uri: string, name: string, friendlyApplication: string, friendlyExecutable: string)

  /**
   What the collaborators answered for one device of the filtered list: the
   targets matching the spec (or the failure of that query) and the device
   instance's name (or the failure of looking the device up).
   */
  datatype DeviceQuery = DeviceQuery(device: DevicePath, targets: Result<seq<Target>>, instance: Result<string>)

  /** One (device, target) pair that matches the spec. */
  datatype Candidate = Candidate(uri: string, device: DevicePath, deviceName: string, name: string)

  /**
   The first non-empty string of `prefs`, in order, or `fallback` when every
   one of them is empty.
   */
  function FirstNonEmpty(prefs: seq<string>, fallback: string): (r: string)
    ensures (exists i :: 0 <= i < |prefs| && prefs[i] != "") ==>
              exists k :: 0 <= k < |prefs| && prefs[k] != "" && r == prefs[k] && forall j :: 0 <= j < k ==> prefs[j] == ""
    ensures (forall i :: 0 <= i < |prefs| ==> prefs[i] == "") ==> r == fallback
    decreases |prefs|
  {
    if |prefs| == 0 then fallback
    else if prefs[0] != "" then prefs[0]
    else
      var r := FirstNonEmpty(prefs[1..], fallback);
      assert forall i :: 1 <= i < |prefs| ==> prefs[i] == prefs[1..][i - 1];
      r
  }

  /**
   The name a target is shown and saved under: its friendly application name,
   else its friendly executable name, else its raw name.
   */
  function DisplayName(t: Target): (r: string)
    ensures t.friendlyApplication != "" ==> r == t.friendlyApplication
    ensures t.friendlyApplication == "" && t.friendlyExecutable != "" ==> r == t.friendlyExecutable
    ensures t.friendlyApplication == "" && t.friendlyExecutable == "" ==> r == t.name
  {
    var prefs := [t.friendlyApplication, t.friendlyExecutable];
    var r := FirstNonEmpty(prefs, t.name);
    assert t.friendlyExecutable != "" ==> prefs[1] != "";
    r
  }

  /** The candidate a target of a device named `deviceName` becomes. */
  function MakeCandidate(device: DevicePath, deviceName: string, t: Target): Candidate
  {
    Candidate(t.uri, device, deviceName, DisplayName(t))
  }

  /** The candidates of one device, in the order its targets were reported. */
  function DeviceCandidates(device: DevicePath, deviceName: string, ts: seq<Target>): (cs: seq<Candidate>)
    ensures |cs| == |ts|
    ensures forall j :: 0 <= j < |ts| ==> cs[j] == MakeCandidate(device, deviceName, ts[j])
    ensures forall j :: 0 <= j < |ts| ==>
              cs[j].uri == ts[j].uri && cs[j].device == device && cs[j].deviceName == deviceName
    decreases |ts|
  {
    if |ts| == 0 then []
    else [MakeCandidate(device, deviceName, ts[0])] + DeviceCandidates(device, deviceName, ts[1..])
  }

  /** A device whose target query succeeded but whose lookup failed: it stops the search. */
  predicate Aborts(q: DeviceQuery)
  {
    q.targets.Ok? && q.instance.Err?
  }

  /** A device that contributes its targets to the candidates. */
  predicate Contributes(q: DeviceQuery)
  {
    q.targets.Ok? && q.instance.Ok?
  }

  /** Number of targets reported by the devices whose target query succeeded. */
  function TargetCount(qs: seq<DeviceQuery>): nat
  {
    if |qs| == 0 then 0
    else (if qs[0].targets.Ok? then |qs[0].targets.value| else 0) + TargetCount(qs[1..])
  }

  /**
   Walks the devices in order. A device whose target query failed is skipped;
   a device whose lookup failed ends the walk with that lookup's error;
   every other device appends one candidate per target.
   */
  function Collect(qs: seq<DeviceQuery>): (r: Result<seq<Candidate>>)
    ensures r.Err? <==> exists i :: 0 <= i < |qs| && Aborts(qs[i])
    ensures r.Err? ==> exists i :: 0 <= i < |qs| && Aborts(qs[i]) && r.error == qs[i].instance.error
                                   && forall j :: 0 <= j < i ==> !Aborts(qs[j])
    ensures r.Ok? ==> |r.value| == TargetCount(qs)
    ensures r.Ok? ==> forall c :: c in r.value <==>
              exists i, j :: 0 <= i < |qs| && Contributes(qs[i]) && 0 <= j < |qs[i].targets.value|
                             && c == MakeCandidate(qs[i].device, qs[i].instance.value, qs[i].targets.value[j])
    decreases |qs|
  {
    if |qs| == 0 then Ok([])
    else
      var q := qs[0];
      assert forall i :: 1 <= i < |qs| ==> qs[i] == qs[1..][i - 1];
      match q.targets
      case Err(_) => Collect(qs[1..])
      case Ok(ts) =>
        match q.instance
        case Err(e) => Err(e)
        case Ok(name) =>
          match Collect(qs[1..])
          case Err(e) => Err(e)
          case Ok(rest) => Ok(DeviceCandidates(q.device, name, ts) + rest)
  }

  /** Sequential composition of two walks: the first error wins, otherwise the candidates are concatenated. */
  function Then(x: Result<seq<Candidate>>, y: Result<seq<Candidate>>): Result<seq<Candidate>>
  {
    match x
    case Err(e) => Err(e)
    case Ok(xs) =>
      match y
      case Err(e) => Err(e)
      case Ok(ys) => Ok(xs + ys)
  }

  /**
   Device order: walking `a` then `b` is walking `a + b`, so every candidate
   of an earlier device precedes every candidate of a later one.
   */
  lemma {:induction false} CollectAppend(a: seq<DeviceQuery>, b: seq<DeviceQuery>)
    ensures Collect(a + b) == Then(Collect(a), Collect(b))
    decreases |a|
  {
    if |a| == 0 {
      assert a + b == b;
      match Collect(b)
      case Err(_) =>
      case Ok(ys) => assert [] + ys == ys;
    } else {
      assert (a + b)[0] == a[0];
      assert (a + b)[1..] == a[1..] + b;
      CollectAppend(a[1..], b);
      var q := a[0];
      if q.targets.Ok? && q.instance.Ok? {
        var cs := DeviceCandidates(q.device, q.instance.value, q.targets.value);
        match Collect(a[1..])
        case Err(_) =>
        case Ok(xs) =>
          match Collect(b)
          case Err(_) =>
          case Ok(ys) => assert cs + (xs + ys) == (cs + xs) + ys;
      }
    }
  }

  /** A device whose target query failed contributes nothing, wherever it stands. */
  lemma CollectSkipsFailedQuery(a: seq<DeviceQuery>, q: DeviceQuery, b: seq<DeviceQuery>)
    requires q.targets.Err?
    ensures Collect(a + [q] + b) == Collect(a + b)
  {
    CollectAppend(a + [q], b);
    CollectAppend(a, [q]);
    assert a + [q] + b == (a + [q]) + b;
    assert Collect([q]) == Ok([]);
    assert Collect(a + [q]) == Collect(a) by {
      match Collect(a)
      case Err(_) =>
      case Ok(xs) => assert xs + [] == xs;
    }
    CollectAppend(a, b);
  }

  /** A single device that answers both queries contributes its targets' candidates, in order. */
  lemma CollectOne(q: DeviceQuery)
    requires Contributes(q)
    ensures Collect([q]) == Ok(DeviceCandidates(q.device, q.instance.value, q.targets.value))
  {
    assert [q][1..] == [];
    var cs := DeviceCandidates(q.device, q.instance.value, q.targets.value);
    assert cs + [] == cs;
  }
}
