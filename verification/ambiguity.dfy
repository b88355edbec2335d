/**
 The listing the verb returns as its error when more than one candidate
 matches: a title naming the spec, then every candidate's uri, with a device
 header line whenever the device name changes from the previous candidate.
 */
module Ambiguity {
  import opened Common
  import opened Targets

  /** One line of the listing. */
  datatype ReportLine = Title(spec: string) | DeviceLine(deviceName: string) | UriLine(uri: string)

  /** The condition under which the verb prints a device header before candidate `i`. */
  predicate HeaderBefore(found: seq<Candidate>, i: int)
    requires 0 <= i < |found|
  {
    i == 0 || found[i - 1].deviceName != found[i].deviceName
  }

  /** The body of the listing, built candidate by candidate as the verb's loop does. */
  function Listing(found: seq<Candidate>): (lines: seq<ReportLine>)
    ensures |found| <= |lines| <= 2 * |found|
    ensures forall k :: 0 <= k < |lines| ==> !lines[k].Title?
    ensures |found| > 0 ==> lines[0] == DeviceLine(found[0].deviceName)
    decreases |found|
  {
    if |found| == 0 then []
    else
      var i := |found| - 1;
      var prefix := Listing(found[..i]);
      assert i > 0 ==> found[..i][0] == found[0];
      prefix
      + (if HeaderBefore(found, i) then [DeviceLine(found[i].deviceName)] else [])
      + [UriLine(found[i].uri)]
  }

  /** The whole listing for the spec: the title first, and only there. */
  function Report(spec: string, found: seq<Candidate>): (r: seq<ReportLine>)
    ensures |r| >= 1 + |found|
    ensures r[0] == Title(spec)
    ensures forall k :: 1 <= k < |r| ==> !r[k].Title?
  {
    [Title(spec)] + Listing(found)
  }

  /** The text of one line, without its line break. */
  function LineText(l: ReportLine): string
  {
    match l
    case Title(spec) => "Found " + spec + " candidates: "
    case DeviceLine(name) => "  " + name + ":"
    case UriLine(uri) => "    " + uri
  }

  /** The lines as text, each one ended by a line break. */
  function Text(lines: seq<ReportLine>): (t: string)
    ensures |t| >= |lines|
    ensures |lines| > 0 ==> t[|t| - 1] == '\n'
    ensures |lines| == 0 ==> t == ""
    decreases |lines|
  {
    if |lines| == 0 then "" else LineText(lines[0]) + "\n" + Text(lines[1..])
  }

  /** Lines are rendered independently and in order: the text of `a + b` is `a`'s text followed by `b`'s. */
  lemma {:induction false} TextAppend(a: seq<ReportLine>, b: seq<ReportLine>)
    ensures Text(a + b) == Text(a) + Text(b)
    decreases |a|
  {
    if |a| == 0 {
      assert a + b == b;
    } else {
      assert (a + b)[0] == a[0];
      assert (a + b)[1..] == a[1..] + b;
      TextAppend(a[1..], b);
    }
  }

  /** The reported text opens with the title line naming the spec. */
  lemma ReportTextTitle(spec: string, found: seq<Candidate>)
    ensures var t := Text(Report(spec, found));
            var title := "Found " + spec + " candidates: \n";
            |t| >= |title| && t[..|title|] == title
  {
    TextAppend([Title(spec)], Listing(found));
    assert Text([Title(spec)]) == LineText(Title(spec)) + "\n" + Text([]);
  }

  /** The device header a reader of `lines` is currently under: the last device line, if any. */
  function CurrentDevice(lines: seq<ReportLine>): Option<string>
    decreases |lines|
  {
    if |lines| == 0 then None
    else if lines[|lines| - 1].DeviceLine? then Some(lines[|lines| - 1].deviceName)
    else CurrentDevice(lines[..|lines| - 1])
  }

  /**
   How a reader attributes the listed uris: each uri line yields the pair
   (device header above it, uri). None when a uri line has no header above it.
   Other lines yield nothing.
   */
  function Attribution(lines: seq<ReportLine>): Option<seq<(string, string)>>
    decreases |lines|
  {
    if |lines| == 0 then Some([])
    else
      var prefix := lines[..|lines| - 1];
      match lines[|lines| - 1]
      case UriLine(u) =>
        (match (Attribution(prefix), CurrentDevice(prefix))
         case (Some(ps), Some(d)) => Some(ps + [(d, u)])
         case _ => None)
      case _ => Attribution(prefix)
  }

  /** The uris listed, in the order they appear. */
  function ListedUris(lines: seq<ReportLine>): seq<string>
    decreases |lines|
  {
    if |lines| == 0 then []
    else
      var prefix := lines[..|lines| - 1];
      match lines[|lines| - 1]
      case UriLine(u) => ListedUris(prefix) + [u]
      case _ => ListedUris(prefix)
  }

  /** Each candidate as the pair (its device's name, its uri). */
  function Pairs(found: seq<Candidate>): seq<(string, string)>
  {
    seq(|found|, i requires 0 <= i < |found| => (found[i].deviceName, found[i].uri))
  }

  /** Each candidate's uri, in collection order. */
  function Uris(found: seq<Candidate>): seq<string>
  {
    seq(|found|, i requires 0 <= i < |found| => found[i].uri)
  }

  /**
   No header is wasted: every device line is directly followed by a uri line
   and names a device other than the one already in effect.
   */
  predicate HeadersMinimal(lines: seq<ReportLine>)
  {
    forall k :: 0 <= k < |lines| && lines[k].DeviceLine? ==>
      k + 1 < |lines| && lines[k + 1].UriLine? && CurrentDevice(lines[..k]) != Some(lines[k].deviceName)
  }

  /** The last step of the listing, split off for the inductive proofs. */
  lemma ListingStep(found: seq<Candidate>)
    requires |found| > 0
    ensures var i := |found| - 1;
            Listing(found) == Listing(found[..i])
                              + (if HeaderBefore(found, i) then [DeviceLine(found[i].deviceName)] else [])
                              + [UriLine(found[i].uri)]
  {
  }

  /** Reading a uri line after `P`: attributed to the header in effect, which it leaves unchanged. */
  lemma ReadUriLine(P: seq<ReportLine>, u: string)
    ensures CurrentDevice(P + [UriLine(u)]) == CurrentDevice(P)
    ensures Attribution(P).Some? && CurrentDevice(P).Some? ==>
              Attribution(P + [UriLine(u)]) == Some(Attribution(P).value + [(CurrentDevice(P).value, u)])
  {
    assert (P + [UriLine(u)])[..|P|] == P;
  }

  /** Reading a device line after `L`: it becomes the header in effect and attributes nothing. */
  lemma ReadDeviceLine(L: seq<ReportLine>, d: string)
    ensures CurrentDevice(L + [DeviceLine(d)]) == Some(d)
    ensures Attribution(L + [DeviceLine(d)]) == Attribution(L)
  {
    assert (L + [DeviceLine(d)])[..|L|] == L;
  }

  /** The pairs of `found` are those of all but its last candidate, then the last one's. */
  lemma PairsSnoc(found: seq<Candidate>)
    requires |found| > 0
    ensures var i := |found| - 1;
            Pairs(found) == Pairs(found[..i]) + [(found[i].deviceName, found[i].uri)]
  {
    var i := |found| - 1;
    assert forall k :: 0 <= k < i ==> found[..i][k] == found[k];
  }

  /** The header in effect after the listing is the last candidate's device. */
  lemma {:induction false} ListingCurrentDevice(found: seq<Candidate>)
    ensures CurrentDevice(Listing(found)) == if |found| == 0 then None else Some(found[|found| - 1].deviceName)
    decreases |found|
  {
    if |found| > 0 {
      var i := |found| - 1;
      var c := found[i];
      var rest := found[..i];
      ListingCurrentDevice(rest);
      var L := Listing(rest);
      var H: seq<ReportLine> := if HeaderBefore(found, i) then [DeviceLine(c.deviceName)] else [];
      ListingStep(found);
      if HeaderBefore(found, i) {
        ReadDeviceLine(L, c.deviceName);
      } else {
        assert L + H == L;
        assert rest[i - 1] == found[i - 1];
      }
      ReadUriLine(L + H, c.uri);
    }
  }

  /**
   Every candidate is listed under its own device's name, each exactly once
   and in collection order.
   */
  lemma {:induction false} ListingAttribution(found: seq<Candidate>)
    ensures Attribution(Listing(found)) == Some(Pairs(found))
    decreases |found|
  {
    if |found| > 0 {
      var i := |found| - 1;
      var c := found[i];
      var rest := found[..i];
      ListingAttribution(rest);
      ListingCurrentDevice(found);
      var L := Listing(rest);
      var H: seq<ReportLine> := if HeaderBefore(found, i) then [DeviceLine(c.deviceName)] else [];
      var P := L + H;
      ListingStep(found);
      ReadUriLine(P, c.uri);
      assert CurrentDevice(P) == Some(c.deviceName);
      if HeaderBefore(found, i) {
        ReadDeviceLine(L, c.deviceName);
      } else {
        assert P == L;
      }
      PairsSnoc(found);
    } else {
      assert Pairs(found) == [];
    }
  }

  /** Reading one more line adds its uri, if it is a uri line, to the uris listed. */
  lemma ReadLine(P: seq<ReportLine>, l: ReportLine)
    ensures ListedUris(P + [l]) == if l.UriLine? then ListedUris(P) + [l.uri] else ListedUris(P)
  {
    assert (P + [l])[..|P|] == P;
  }

  /** The uris of `found` are those of all but its last candidate, then the last one's. */
  lemma UrisSnoc(found: seq<Candidate>)
    requires |found| > 0
    ensures Uris(found) == Uris(found[..|found| - 1]) + [found[|found| - 1].uri]
  {
    var i := |found| - 1;
    assert forall k :: 0 <= k < i ==> found[..i][k] == found[k];
  }

  /** Every candidate's uri appears in the listing once, in collection order. */
  lemma {:induction false} ListingUris(found: seq<Candidate>)
    ensures ListedUris(Listing(found)) == Uris(found)
    decreases |found|
  {
    if |found| > 0 {
      var i := |found| - 1;
      var c := found[i];
      var rest := found[..i];
      ListingUris(rest);
      var L := Listing(rest);
      var H: seq<ReportLine> := if HeaderBefore(found, i) then [DeviceLine(c.deviceName)] else [];
      var P := L + H;
      ListingStep(found);
      if HeaderBefore(found, i) {
        ReadLine(L, DeviceLine(c.deviceName));
      } else {
        assert P == L;
      }
      ReadLine(P, UriLine(c.uri));
      UrisSnoc(found);
    } else {
      assert Uris(found) == [];
    }
  }

  /**
   A device header appears exactly where the device changes: never twice in a
   row for the same device and never without a uri under it.
   */
  lemma {:induction false} ListingHeadersMinimal(found: seq<Candidate>)
    ensures HeadersMinimal(Listing(found))
    decreases |found|
  {
    if |found| > 0 {
      var i := |found| - 1;
      var c := found[i];
      var rest := found[..i];
      ListingHeadersMinimal(rest);
      ListingCurrentDevice(rest);
      var L := Listing(rest);
      var H: seq<ReportLine> := if HeaderBefore(found, i) then [DeviceLine(c.deviceName)] else [];
      var all := L + H + [UriLine(c.uri)];
      ListingStep(found);
      assert Listing(found) == all;
      forall k | 0 <= k < |all| && all[k].DeviceLine?
        ensures k + 1 < |all| && all[k + 1].UriLine? && CurrentDevice(all[..k]) != Some(all[k].deviceName)
      {
        if k < |L| {
          assert all[k] == L[k];
          assert all[..k] == L[..k];
          assert all[k + 1] == L[k + 1];
        } else {
          assert k == |L| && HeaderBefore(found, i);
          assert all[..k] == L;
          if i > 0 {
            assert rest[i - 1] == found[i - 1];
          }
        }
      }
    }
  }
}
