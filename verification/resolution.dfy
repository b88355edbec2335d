/**
 Target resolution in URI mode: the filtered devices are walked for
 candidates, and the outcome is classified as no device, not found, exactly
 one candidate, or ambiguous.
 */
module Resolution {
  import opened Common
  import opened Targets
  import opened Ambiguity

  /**
   Resolves `spec` against the filtered device list (or the failure of
   filtering it). Only a single candidate resolves; an ambiguous spec fails
   with the listing of every candidate.
   */
  function Resolve(spec: string, devices: Result<seq<DeviceQuery>>): (r: Result<Candidate>)
    ensures devices.Err? ==> r == Err(devices.error)
    ensures r.Ok? ==> devices.Ok? && |devices.value| > 0 && TargetCount(devices.value) == 1
                      && (forall i :: 0 <= i < |devices.value| ==> !Aborts(devices.value[i]))
    ensures r.Ok? ==> exists i, j :: 0 <= i < |devices.value| && Contributes(devices.value[i])
                                     && 0 <= j < |devices.value[i].targets.value|
                                     && r.value == MakeCandidate(devices.value[i].device, devices.value[i].instance.value,
                                                                 devices.value[i].targets.value[j])
  {
    match devices
    case Err(e) => Err(e)
    case Ok(qs) =>
      if |qs| == 0 then Err(NoMatchingDevice)
      else
        match Collect(qs)
        case Err(e) => Err(e)
        case Ok(found) =>
          if |found| == 0 then Err(NotFound(spec))
          else if |found| > 1 then Err(Ambiguous(Text(Report(spec, found))))
          else
            assert found[0] in found;
            Ok(found[0])
  }

  /** An empty filtered device list fails before any device is queried. */
  lemma ResolveNoDevice(spec: string)
    ensures Resolve(spec, Ok([])) == Err(NoMatchingDevice)
  {
  }

  /** A failure to look a queried device up ends the resolution with the first such failure. */
  lemma ResolveLookupFailure(spec: string, qs: seq<DeviceQuery>, i: int)
    requires 0 <= i < |qs| && Aborts(qs[i])
    requires forall j :: 0 <= j < i ==> !Aborts(qs[j])
    ensures Resolve(spec, Ok(qs)) == Err(qs[i].instance.error)
  {
  }

  /**
   When no device aborts and the devices offer no target at all (in particular
   when every device's query failed), resolution fails naming the spec.
   */
  lemma ResolveNotFound(spec: string, qs: seq<DeviceQuery>)
    requires |qs| > 0
    requires forall i :: 0 <= i < |qs| ==> !Aborts(qs[i])
    requires TargetCount(qs) == 0
    ensures Resolve(spec, Ok(qs)) == Err(NotFound(spec))
  {
  }

  /** The message the verb reports when no device offers the spec contains the spec. */
  lemma ResolveNotFoundMessage(spec: string, qs: seq<DeviceQuery>)
    requires |qs| > 0
    requires forall i :: 0 <= i < |qs| ==> !Aborts(qs[i])
    requires TargetCount(qs) == 0
    ensures Resolve(spec, Ok(qs)).Err?
    ensures exists i :: OccursAt(Message(Resolve(spec, Ok(qs)).error), spec, i)
  {
    ResolveNotFound(spec, qs);
    var m := Message(NotFound(spec));
    assert exists i :: OccursAt(m, spec, i);
  }

  /** A device that neither aborts nor contributes a candidate. */
  predicate Silent(q: DeviceQuery)
  {
    q.targets.Err? || (q.instance.Ok? && |q.targets.value| == 0)
  }

  /** Devices that neither abort nor contribute walk to no candidate at all. */
  lemma CollectSilent(qs: seq<DeviceQuery>)
    requires forall i :: 0 <= i < |qs| ==> Silent(qs[i])
    ensures Collect(qs) == Ok([])
  {
  }

  /**
   A device offering exactly one target, among devices that offer none or
   whose query failed, resolves to that target's candidate, uri unchanged.
   */
  lemma ResolveSoleCandidate(spec: string, before: seq<DeviceQuery>, q: DeviceQuery, after: seq<DeviceQuery>)
    requires forall i :: 0 <= i < |before| ==> Silent(before[i])
    requires forall i :: 0 <= i < |after| ==> Silent(after[i])
    requires Contributes(q) && |q.targets.value| == 1
    ensures Resolve(spec, Ok(before + [q] + after))
            == Ok(MakeCandidate(q.device, q.instance.value, q.targets.value[0]))
    ensures Resolve(spec, Ok(before + [q] + after)).value.uri == q.targets.value[0].uri
  {
    CollectSilent(before);
    CollectSilent(after);
    CollectOne(q);
    CollectAppend(before, [q]);
    CollectAppend(before + [q], after);
    var cs := DeviceCandidates(q.device, q.instance.value, q.targets.value);
    assert [] + cs == cs;
    assert cs + [] == cs;
  }

  /**
   Two or more candidates fail with the listing of all of them, in
   collection order, under their devices' names.
   */
  lemma ResolveAmbiguous(spec: string, qs: seq<DeviceQuery>)
    requires |qs| > 0
    requires forall i :: 0 <= i < |qs| ==> !Aborts(qs[i])
    requires TargetCount(qs) > 1
    ensures Collect(qs).Ok?
    ensures Resolve(spec, Ok(qs)) == Err(Ambiguous(Text(Report(spec, Collect(qs).value))))
    ensures Attribution(Listing(Collect(qs).value)) == Some(Pairs(Collect(qs).value))
  {
    ListingAttribution(Collect(qs).value);
  }
}
