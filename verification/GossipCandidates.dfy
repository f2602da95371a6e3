/** The two-ended fill of the gossip candidates: managers go to the back, the others to the front. */
module GossipCandidates {
  datatype Member = Member(endpoint: int, isManager: bool)

  /** The endpoints of the managers, or of the others, in order. */
  function Endpoints(members: seq<Member>, managers: bool): seq<int> {
    if members == [] then []
    else
      var rest, last := Endpoints(members[..|members| - 1], managers), members[|members| - 1];
      if last.isManager == managers then rest + [last.endpoint] else rest
  }

  function AllEndpoints(members: seq<Member>): (r: seq<int>)
    ensures |r| == |members|
    ensures forall k :: 0 <= k < |members| ==> r[k] == members[k].endpoint
  {
    if members == [] then [] else AllEndpoints(members[..|members| - 1]) + [members[|members| - 1].endpoint]
  }

  /** The managers' endpoints as the fill leaves them at the back. */
  function ManagersBack(members: seq<Member>): seq<int> {
    if members == [] then []
    else
      var rest, last := ManagersBack(members[..|members| - 1]), members[|members| - 1];
      if last.isManager then [last.endpoint] + rest else rest
  }

  /** They are in reverse order. */
  lemma {:induction false} BackIsReversed(members: seq<Member>)
    ensures var managers := Endpoints(members, true);
      && |ManagersBack(members)| == |managers|
      && forall k :: 0 <= k < |managers| ==> ManagersBack(members)[k] == managers[|managers| - 1 - k]
  {
    if members != [] {
      BackIsReversed(members[..|members| - 1]);
    }
  }

  /** Managers and others together are the members, each once. */
  lemma {:induction false} EndpointsPartition(members: seq<Member>)
    ensures |Endpoints(members, true)| + |Endpoints(members, false)| == |members|
    ensures multiset(Endpoints(members, false)) + multiset(Endpoints(members, true))
         == multiset(AllEndpoints(members))
    ensures multiset(ManagersBack(members)) == multiset(Endpoints(members, true))
  {
    if members != [] {
      EndpointsPartition(members[..|members| - 1]);
    }
  }

  lemma EndpointsSnoc(members: seq<Member>, k: nat, managers: bool)
    requires k < |members|
    ensures Endpoints(members[..k + 1], managers)
         == if members[k].isManager == managers then Endpoints(members[..k], managers) + [members[k].endpoint]
            else Endpoints(members[..k], managers)
  {
    assert members[..k + 1][..k] == members[..k];
  }

  lemma BackSnoc(members: seq<Member>, k: nat)
    requires k < |members|
    ensures ManagersBack(members[..k + 1])
         == if members[k].isManager then [members[k].endpoint] + ManagersBack(members[..k])
            else ManagersBack(members[..k])
  {
    assert members[..k + 1][..k] == members[..k];
  }

  /** `front` and `back` are what the two ends of the buffer hold. */
  ghost predicate Filled(buffer: array<int>, i: int, j: int, front: seq<int>, back: seq<int>)
    reads buffer
  {
    0 <= i + 1 <= j <= buffer.Length && buffer[..i + 1] == front && buffer[j..] == back
  }

  /** A manager goes in front of the managers placed so far. */
  method PlaceBack(buffer: array<int>, i: int, j: int, endpoint: int, ghost front: seq<int>,
                   ghost back: seq<int>)
    requires Filled(buffer, i, j, front, back) && i + 1 < j
    modifies buffer
    ensures Filled(buffer, i, j - 1, front, [endpoint] + back)
  {
    buffer[j - 1] := endpoint;
  }

  /** Any other candidate goes behind the others placed so far. */
  method PlaceFront(buffer: array<int>, i: int, j: int, endpoint: int, ghost front: seq<int>,
                    ghost back: seq<int>)
    requires Filled(buffer, i, j, front, back) && i + 1 < j
    modifies buffer
    ensures Filled(buffer, i + 1, j, front + [endpoint], back)
  {
    buffer[i + 1] := endpoint;
  }

  /** The first `k` members are placed. */
  ghost predicate Placed(buffer: array<int>, i: int, j: int, members: seq<Member>, k: nat)
    requires k <= |members|
    reads buffer
  {
    && j - (i + 1) == |members| - k
    && Filled(buffer, i, j, Endpoints(members[..k], false), ManagersBack(members[..k]))
  }

  /** One turn of the fill loop. */
  method Place(buffer: array<int>, i: int, j: int, members: seq<Member>, k: nat)
    returns (nextI: int, nextJ: int)
    requires k < |members| && Placed(buffer, i, j, members, k)
    modifies buffer
    ensures Placed(buffer, nextI, nextJ, members, k + 1)
  {
    ghost var others, managers := Endpoints(members[..k], false), ManagersBack(members[..k]);
    BackSnoc(members, k);
    EndpointsSnoc(members, k, false);
    nextI, nextJ := i, j;
    if members[k].isManager {
      PlaceBack(buffer, i, j, members[k].endpoint, others, managers);
      nextJ := j - 1;
    } else {
      PlaceFront(buffer, i, j, members[k].endpoint, others, managers);
      nextI := i + 1;
    }
  }

  /** What the fill is for: the others in order, then the managers in reverse. */
  ghost predicate Arranged(buffer: array<int>, j: int, members: seq<Member>)
    reads buffer
  {
    var others, managers := Endpoints(members, false), Endpoints(members, true);
    && 0 <= j == |others| && buffer.Length == j + |managers|
    && (forall p :: 0 <= p < j ==> buffer[p] == others[p])
    && (forall p :: j <= p < buffer.Length ==> buffer[p] == managers[buffer.Length - 1 - p])
  }

  lemma FilledIsArranged(buffer: array<int>, i: int, members: seq<Member>)
    requires Filled(buffer, i, i + 1, Endpoints(members, false), ManagersBack(members))
    ensures Arranged(buffer, i + 1, members)
  {
    BackIsReversed(members);
    var j, others, managers := i + 1, Endpoints(members, false), Endpoints(members, true);
    forall p | 0 <= p < j ensures buffer[p] == others[p] {
      assert buffer[..j][p] == others[p];
    }
    forall p | j <= p < buffer.Length ensures buffer[p] == managers[buffer.Length - 1 - p] {
      assert buffer[j..][p - j] == ManagersBack(members)[p - j];
    }
  }

  lemma FilledPermutes(buffer: array<int>, i: int, members: seq<Member>)
    requires Filled(buffer, i, i + 1, Endpoints(members, false), ManagersBack(members))
    ensures multiset(buffer[..]) == multiset(AllEndpoints(members))
  {
    assert buffer[..] == buffer[..i + 1] + buffer[i + 1..];
    EndpointsPartition(members);
  }

  /** The fill loop of `arrange_gossip_candidates`. The two indices meet: no slot is left out and none
      is written twice. */
  method Fill(members: seq<Member>) returns (buffer: array<int>, i: int, j: int)
    ensures fresh(buffer) && buffer.Length == |members| && j == i + 1
    ensures Arranged(buffer, j, members)
    ensures multiset(buffer[..]) == multiset(AllEndpoints(members))
  {
    buffer := new int[|members|];
    i, j := -1, |members|;
    for k := 0 to |members|
      invariant Placed(buffer, i, j, members, k)
    {
      i, j := Place(buffer, i, j, members, k);
    }
    assert members[..|members|] == members;
    FilledIsArranged(buffer, i, members);
    FilledPermutes(buffer, i, members);
  }
}
