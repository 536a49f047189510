/** Required DVN sets: what a config may approve, and how the on-chain ULN config is compared with it
    (go/internal/config/config.go, go/internal/configcheck/check.go). */
module Uln {
  import opened Tables
  import Sorting

  // ----- the approved set -----

  predicate Distinct(s: seq<Address>) {
    forall i, j :: 0 <= i < j < |s| ==> s[i] != s[j]
  }

  /** The OpenDVN plus at least one other, all explicit, none repeated. */
  predicate ApprovedSet(dvns: seq<Address>, openDvn: Address) {
    |dvns| >= 2 && 0 !in dvns && Distinct(dvns) && openDvn in dvns
  }

  method ValidateRequiredDvnSet(dvns: seq<Address>, openDvn: Address) returns (ok: bool)
    ensures ok <==> ApprovedSet(dvns, openDvn)
  {
    if |dvns| < 2 { return false; }
    var seen: set<Address> := {};
    var containsOpenDvn := false;
    for i := 0 to |dvns|
      invariant seen == set a | a in dvns[..i]
      invariant 0 !in dvns[..i] && Distinct(dvns[..i])
      invariant containsOpenDvn <==> openDvn in dvns[..i]
    {
      assert dvns[..i + 1] == dvns[..i] + [dvns[i]];
      if dvns[i] == 0 {
        assert 0 in dvns;
        return false;
      }
      if dvns[i] in seen {
        var j :| 0 <= j < i && dvns[j] == dvns[i];
        return false;
      }
      seen := seen + {dvns[i]};
      if dvns[i] == openDvn { containsOpenDvn := true; }
    }
    assert dvns[..|dvns|] == dvns;
    return containsOpenDvn;
  }

  // ----- the on-chain set -----

  predicate AddressLe(a: Address, b: Address) {
    a <= b
  }

  /** Compare by length, then sort both and compare element by element. */
  method EqualAddressSets(a: seq<Address>, b: seq<Address>) returns (equal: bool)
    ensures equal <==> multiset(a) == multiset(b)
  {
    if |a| != |b| {
      assert |multiset(a)| == |a| && |multiset(b)| == |b|;
      return false;
    }
    Sorting.SortAndCompare(a, b, AddressLe);
    return Sorting.Sort(a, AddressLe) == Sorting.Sort(b, AddressLe);
  }

  const NIL_DVN_COUNT: nat := 255

  datatype UlnConfig = UlnConfig(
    confirmations: nat, requiredCount: nat, optionalCount: nat, optionalThreshold: nat,
    requiredDvns: seq<Address>, optionalDvns: seq<Address>)

  datatype Side = SendSide | ReceiveSide | BothSides

  datatype Finding = Confirmations | RequiredCount | OptionalCount | OptionalThreshold | OptionalDvns | RequiredDvns | UlnConfirmations

  datatype Issue = Issue(side: Side, finding: Finding)

  function When(found: bool, issue: Issue): seq<Issue> {
    if found then [issue] else []
  }

  function UlnIssues(side: Side, config: UlnConfig, confirmations: nat, approved: seq<Address>): seq<Issue> {
    When(config.confirmations != confirmations, Issue(side, Confirmations))
    + When(config.requiredCount != |config.requiredDvns| % 256, Issue(side, RequiredCount))
    + When(config.optionalCount != 0 && config.optionalCount != NIL_DVN_COUNT, Issue(side, OptionalCount))
    + When(config.optionalThreshold != 0, Issue(side, OptionalThreshold))
    + When(config.optionalDvns != [], Issue(side, OptionalDvns))
    + When(multiset(config.requiredDvns) != multiset(approved), Issue(side, RequiredDvns))
  }

  /** Collects issues as it goes. */
  class Checker {
    var issues: seq<Issue>

    constructor ()
      ensures issues == []
    {
      issues := [];
    }

    method AddIf(found: bool, side: Side, finding: Finding)
      modifies this
      ensures issues == old(issues) + When(found, Issue(side, finding))
    {
      if found { issues := issues + [Issue(side, finding)]; }
    }

    method CompareUlnConfig(side: Side, config: UlnConfig, confirmations: nat, approved: seq<Address>)
      modifies this
      ensures issues == old(issues) + UlnIssues(side, config, confirmations, approved)
    {
      AddIf(config.confirmations != confirmations, side, Confirmations);
      AddIf(config.requiredCount != |config.requiredDvns| % 256, side, RequiredCount);
      AddIf(config.optionalCount != 0 && config.optionalCount != NIL_DVN_COUNT, side, OptionalCount);
      AddIf(config.optionalThreshold != 0, side, OptionalThreshold);
      AddIf(|config.optionalDvns| != 0, side, OptionalDvns);
      var equal := EqualAddressSets(config.requiredDvns, approved);
      AddIf(!equal, side, RequiredDvns);
      Appended(old(issues),
        When(config.confirmations != confirmations, Issue(side, Confirmations)),
        When(config.requiredCount != |config.requiredDvns| % 256, Issue(side, RequiredCount)),
        When(config.optionalCount != 0 && config.optionalCount != NIL_DVN_COUNT, Issue(side, OptionalCount)),
        When(config.optionalThreshold != 0, Issue(side, OptionalThreshold)),
        When(config.optionalDvns != [], Issue(side, OptionalDvns)),
        When(!equal, Issue(side, RequiredDvns)));
    }

    method CheckUln(send: UlnConfig, receive: UlnConfig, srcConfirmations: nat, dstConfirmations: nat,
                    sendApproved: seq<Address>, receiveApproved: seq<Address>)
      modifies this
      ensures issues == old(issues) + PathwayIssues(send, receive, srcConfirmations, dstConfirmations, sendApproved, receiveApproved)
    {
      CompareUlnConfig(SendSide, send, srcConfirmations, sendApproved);
      CompareUlnConfig(ReceiveSide, receive, dstConfirmations, receiveApproved);
      AddIf(send.confirmations < receive.confirmations, BothSides, UlnConfirmations);
      AppendedThree(old(issues),
        UlnIssues(SendSide, send, srcConfirmations, sendApproved),
        UlnIssues(ReceiveSide, receive, dstConfirmations, receiveApproved),
        When(send.confirmations < receive.confirmations, Issue(BothSides, UlnConfirmations)));
    }
  }

  lemma Appended(s: seq<Issue>, a: seq<Issue>, b: seq<Issue>, c: seq<Issue>, d: seq<Issue>, e: seq<Issue>, f: seq<Issue>)
    ensures s + a + b + c + d + e + f == s + (a + b + c + d + e + f)
  {
  }

  lemma AppendedThree(s: seq<Issue>, a: seq<Issue>, b: seq<Issue>, c: seq<Issue>)
    ensures s + a + b + c == s + (a + b + c)
  {
  }

  function PathwayIssues(
    send: UlnConfig, receive: UlnConfig, srcConfirmations: nat, dstConfirmations: nat,
    sendApproved: seq<Address>, receiveApproved: seq<Address>): seq<Issue>
  {
    UlnIssues(SendSide, send, srcConfirmations, sendApproved)
    + UlnIssues(ReceiveSide, receive, dstConfirmations, receiveApproved)
    + When(send.confirmations < receive.confirmations, Issue(BothSides, UlnConfirmations))
  }

  /** The on-chain side is exactly what was approved. */
  predicate MatchesApproval(config: UlnConfig, confirmations: nat, approved: seq<Address>) {
    && config.confirmations == confirmations && multiset(config.requiredDvns) == multiset(approved)
    && config.requiredCount == |config.requiredDvns| % 256
    && (config.optionalCount == 0 || config.optionalCount == NIL_DVN_COUNT)
    && config.optionalThreshold == 0 && config.optionalDvns == []
  }

  /** Each finding is reported for a side exactly when that part of its config is off, and for no other. */
  lemma IssuesSayWhatIsOff(side: Side, config: UlnConfig, confirmations: nat, approved: seq<Address>, issue: Issue)
    ensures issue in UlnIssues(side, config, confirmations, approved) <==>
      && issue.side == side
      && match issue.finding
         case Confirmations => config.confirmations != confirmations
         case RequiredCount => config.requiredCount != |config.requiredDvns| % 256
         case OptionalCount => config.optionalCount != 0 && config.optionalCount != 255
         case OptionalThreshold => config.optionalThreshold != 0
         case OptionalDvns => |config.optionalDvns| != 0
         case RequiredDvns => multiset(config.requiredDvns) != multiset(approved)
         case UlnConfirmations => false
  {
  }

  /** Over both sides, the relation between their confirmations is reported exactly when it is off. */
  lemma PathwayIssuesSayWhatIsOff(
    send: UlnConfig, receive: UlnConfig, srcConfirmations: nat, dstConfirmations: nat,
    sendApproved: seq<Address>, receiveApproved: seq<Address>, issue: Issue)
    ensures issue in PathwayIssues(send, receive, srcConfirmations, dstConfirmations, sendApproved, receiveApproved) <==>
      match issue.side
      case SendSide => issue in UlnIssues(SendSide, send, srcConfirmations, sendApproved)
      case ReceiveSide => issue in UlnIssues(ReceiveSide, receive, dstConfirmations, receiveApproved)
      case BothSides => issue.finding == UlnConfirmations && send.confirmations < receive.confirmations
  {
    IssuesSayWhatIsOff(SendSide, send, srcConfirmations, sendApproved, issue);
    IssuesSayWhatIsOff(ReceiveSide, receive, dstConfirmations, receiveApproved, issue);
  }

  lemma SameMembers(a: seq<Address>, b: seq<Address>, x: Address)
    requires multiset(a) == multiset(b)
    ensures x in a <==> x in b
  {
    assert x in a <==> x in multiset(a);
    assert x in b <==> x in multiset(b);
  }

  lemma ApprovalCarries(onChain: seq<Address>, approved: seq<Address>, openDvn: Address)
    requires multiset(onChain) == multiset(approved) && ApprovedSet(approved, openDvn)
    ensures ApprovedSet(onChain, openDvn)
  {
    Sorting.NoRepeats(approved, onChain);
    SameMembers(onChain, approved, 0);
    SameMembers(onChain, approved, openDvn);
    assert |multiset(onChain)| == |onChain| && |multiset(approved)| == |approved|;
  }

  /** No issue exactly when both sides match their approval and send confirmations reach the receive side's. */
  lemma IssueFreeIff(
    send: UlnConfig, receive: UlnConfig, srcConfirmations: nat, dstConfirmations: nat,
    sendApproved: seq<Address>, receiveApproved: seq<Address>)
    ensures PathwayIssues(send, receive, srcConfirmations, dstConfirmations, sendApproved, receiveApproved) == []
      <==> && MatchesApproval(send, srcConfirmations, sendApproved)
           && MatchesApproval(receive, dstConfirmations, receiveApproved)
           && send.confirmations >= receive.confirmations
  {
    UlnIssueFreeIff(SendSide, send, srcConfirmations, sendApproved);
    UlnIssueFreeIff(ReceiveSide, receive, dstConfirmations, receiveApproved);
  }

  lemma UlnIssueFreeIff(side: Side, config: UlnConfig, confirmations: nat, approved: seq<Address>)
    ensures UlnIssues(side, config, confirmations, approved) == [] <==> MatchesApproval(config, confirmations, approved)
  {
  }

  /** For a validated config, an issue-free comparison means that both on-chain required sets are the
      approved ones, without duplicates, with the OpenDVN and at least one other member. */
  lemma IssueFreeMeansApproved(
    send: UlnConfig, receive: UlnConfig, srcConfirmations: nat, dstConfirmations: nat,
    sendApproved: seq<Address>, receiveApproved: seq<Address>, sourceOpenDvn: Address, destinationOpenDvn: Address)
    requires ApprovedSet(sendApproved, sourceOpenDvn) && ApprovedSet(receiveApproved, destinationOpenDvn)
    requires PathwayIssues(send, receive, srcConfirmations, dstConfirmations, sendApproved, receiveApproved) == []
    ensures ApprovedSet(send.requiredDvns, sourceOpenDvn) && ApprovedSet(receive.requiredDvns, destinationOpenDvn)
    ensures multiset(send.requiredDvns) == multiset(sendApproved) && multiset(receive.requiredDvns) == multiset(receiveApproved)
    ensures send.confirmations >= receive.confirmations
  {
    IssueFreeIff(send, receive, srcConfirmations, dstConfirmations, sendApproved, receiveApproved);
    ApprovalCarries(send.requiredDvns, sendApproved, sourceOpenDvn);
    ApprovalCarries(receive.requiredDvns, receiveApproved, destinationOpenDvn);
  }
}
