/**
  A probe's history of service observations and its trimming
  (monitoring/timeserie_trim.go). The source keeps a newest-first chain of
  nodes linked by `previous` pointers; here the chain is the sequence `chain`,
  with `chain[0]` the head and `chain[i + 1]` the node `chain[i].previous`
  points to, so cutting a node's `previous` pointer keeps the prefix ending at
  that node. The series' lock is not modelled.
 */
module TimeSerie {

  /** `trimTimeSeriesThreshold`. */
  const TrimThreshold: int := 100

  /** The parsed status of one service. */
  datatype Health = Pass | Warn | Fail

  /** `serviceStatus`: a service's status and the run length of its non-pass observations. */
  datatype ServiceStatus = ServiceStatus(status: Health, count: int)

  /** `timeSerieNode` without its `previous` pointer, which is the position in the chain. */
  datatype TimeSerieNode = TimeSerieNode(timestamp: int, services: map<string, ServiceStatus>)

  /** Every service of the node passed; a node without services passes. */
  predicate AllPass(node: TimeSerieNode) {
    forall name :: name in node.services ==> node.services[name].status == Pass
  }

  /** The position of the newest node with a non-pass service, or `|chain|` if there is none. */
  function FirstNonPass(chain: seq<TimeSerieNode>): (k: nat)
    ensures k <= |chain|
    ensures forall i :: 0 <= i < k ==> AllPass(chain[i])
    ensures k < |chain| ==> !AllPass(chain[k])
    decreases |chain|
  {
    if |chain| == 0 then 0
    else if !AllPass(chain[0]) then 0
    else 1 + FirstNonPass(chain[1..])
  }

  /** Which of the source's trimming helpers runs. */
  datatype TrimBranch = ToLastNode | ToNode | ToGivenNode

  /** A trim: the branch taken, how many of the newest nodes stay, and the new `size`. */
  datatype TrimPlan = TrimPlan(branch: TrimBranch, kept: nat, size: int)

  /**
    The trim `trimTimeSerie` performs on a non-empty chain. Its scan looks at
    the newest nodes up to index `TrimThreshold` and stops at the first with a
    non-pass service.
   */
  function PlanTrim(chain: seq<TimeSerieNode>): (p: TrimPlan)
    requires |chain| >= 1
  {
    var k := FirstNonPass(chain);
    if k == |chain| || k > TrimThreshold then TrimPlan(ToLastNode, 1, 1)
    else if k == TrimThreshold then TrimPlan(ToNode, TrimThreshold, TrimThreshold)
    else TrimPlan(ToGivenNode, k + 1, k)
  }

  /** The head node is never dropped, and nothing beyond the chain is kept. */
  lemma TrimKeepsHead(chain: seq<TimeSerieNode>)
    requires |chain| >= 1
    ensures 1 <= PlanTrim(chain).kept <= |chain|
  {
  }

  /**
    When all of the newest `min(|chain|, TrimThreshold + 1)` nodes pass, and only
    then, the chain collapses to its head and `size` becomes 1.
   */
  lemma TrimAllPass(chain: seq<TimeSerieNode>)
    requires |chain| >= 1
    ensures (forall i :: 0 <= i < |chain| && i <= TrimThreshold ==> AllPass(chain[i])) <==>
      PlanTrim(chain) == TrimPlan(ToLastNode, 1, 1)
  {
  }

  /**
    When the first non-pass node is the one at index `TrimThreshold`, exactly the
    `TrimThreshold` newest nodes stay: that node is dropped.
   */
  lemma TrimAtThreshold(chain: seq<TimeSerieNode>)
    requires |chain| > TrimThreshold
    requires forall i :: 0 <= i < TrimThreshold ==> AllPass(chain[i])
    requires !AllPass(chain[TrimThreshold])
    ensures PlanTrim(chain) == TrimPlan(ToNode, TrimThreshold, TrimThreshold)
  {
  }

  /**
    When the first non-pass node is at an index `k` below `TrimThreshold`, the
    nodes `0..k` stay, including that node, while `size` becomes `k`.
   */
  lemma TrimAtFirstFailure(chain: seq<TimeSerieNode>, k: nat)
    requires k < |chain| && k < TrimThreshold
    requires forall i :: 0 <= i < k ==> AllPass(chain[i])
    requires !AllPass(chain[k])
    ensures PlanTrim(chain) == TrimPlan(ToGivenNode, k + 1, k)
  {
  }

  /**
    `size` equals the number of retained nodes after the first two kinds of trim
    and is one lower after a cut at the first non-pass node.
   */
  lemma TrimSizeAgainstKept(chain: seq<TimeSerieNode>)
    requires |chain| >= 1
    ensures PlanTrim(chain).branch != ToGivenNode ==> PlanTrim(chain).size == PlanTrim(chain).kept
    ensures PlanTrim(chain).branch == ToGivenNode ==> PlanTrim(chain).size == PlanTrim(chain).kept - 1
  {
  }

  /** A two-node chain whose older node fails keeps both nodes but records a size of 1. */
  lemma TrimSizeOffByOne(ts: int)
    ensures var failing := TimeSerieNode(ts, map["svc" := ServiceStatus(Fail, 1)]);
      var chain := [TimeSerieNode(ts + 1, map[]), failing];
      PlanTrim(chain).kept == 2 && PlanTrim(chain).size == 1
  {
    var failing := TimeSerieNode(ts, map["svc" := ServiceStatus(Fail, 1)]);
    var chain := [TimeSerieNode(ts + 1, map[]), failing];
    assert "svc" in failing.services;
    assert !AllPass(chain[1]);
    TrimAtFirstFailure(chain, 1);
  }

  /** `probeTimeSerie`: the chain, from the head, and the `size` counter. */
  class TimeSerie {
    var chain: seq<TimeSerieNode>
    var size: int

    /** The series `makeProbe` builds: one node with the report's timestamp and no services. */
    constructor (timestamp: int)
      ensures chain == [TimeSerieNode(timestamp, map[])] && size == 1
    {
      chain := [TimeSerieNode(timestamp, map[])];
      size := 1;
    }

    /** The loop over a node's services in the scan of `trimTimeSerie`. */
    static method NodeAllPass(node: TimeSerieNode) returns (allPass: bool)
      ensures allPass == AllPass(node)
    {
      var remaining := node.services.Keys;
      while remaining != {}
        invariant remaining <= node.services.Keys
        invariant forall name :: name in node.services && name !in remaining ==> node.services[name].status == Pass
        decreases remaining
      {
        var name :| name in remaining;
        if node.services[name].status != Pass {
          return false;
        }
        remaining := remaining - {name};
      }
      return true;
    }

    /** `trimTimeSerie`. The chain must have a head: the source dereferences it. */
    method Trim()
      requires |chain| >= 1
      modifies this
      ensures chain == old(chain)[..PlanTrim(old(chain)).kept]
      ensures size == PlanTrim(old(chain)).size
    {
      var nodes := chain;
      var count := 0;
      var historicalAllPass := true;
      var current := 0;  // index of `currentNode`; `|nodes|` stands for nil
      while current < |nodes|
        invariant 0 <= current <= |nodes| && count == current && count <= TrimThreshold
        invariant historicalAllPass
        invariant forall i :: 0 <= i < current ==> AllPass(nodes[i])
        modifies {}
      {
        var nodePass := NodeAllPass(nodes[current]);
        if !nodePass {
          historicalAllPass := false;
          break;
        }
        if count >= TrimThreshold {
          break;
        }
        count := count + 1;
        current := current + 1;
      }

      ghost var k := FirstNonPass(nodes);
      if historicalAllPass {
        assert k == |nodes| || k > TrimThreshold;
        TrimToLastNode();
      } else if count >= TrimThreshold {
        assert k == TrimThreshold;
        TrimToNode(TrimThreshold);
      } else if current < |nodes| {
        assert k == current;
        TrimToGivenNode(current, count);
      } else {
        // Trimming to an empty chain: the scan only stops early on an existing node.
        assert false;
      }
    }

    /** `trimToLastNode`: only the head stays. */
    method TrimToLastNode()
      requires |chain| >= 1
      modifies this
      ensures chain == old(chain)[..1] && size == 1
    {
      chain := chain[..1];
      size := 1;
    }

    /** `trimToNode`: walks `count - 1` links from the head and cuts there; `size` becomes `TrimThreshold`. */
    method TrimToNode(count: int)
      requires 1 <= count <= |chain|
      modifies this
      ensures chain == old(chain)[..count] && size == TrimThreshold
    {
      var current := 0;
      var i := 0;
      while i < count - 1
        invariant 0 <= i <= count - 1 && current == i
      {
        current := current + 1;
        i := i + 1;
      }
      chain := chain[..current + 1];
      size := TrimThreshold;
    }

    /** `trimToGivenNode`: cuts after the node at index `node` and sets `size` to `count`. */
    method TrimToGivenNode(node: nat, count: int)
      requires node < |chain|
      modifies this
      ensures chain == old(chain)[..node + 1] && size == count
    {
      chain := chain[..node + 1];
      size := count;
    }
  }
}
