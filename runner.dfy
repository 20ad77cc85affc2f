// The flow files and the stand-in for NiFi's TestRunner that ScriptRunner
// drives: a FIFO queue of flow files, the lists of flow files transferred
// to each relationship, and the processor properties. Running the script
// is an opaque step: each pass takes the head of the queue (if any) and
// hands it to the script, which says where its results go.

module FlowFiles {
  import opened Wrappers
  import opened Sequences

  newtype byte = x: int | 0 <= x < 256

  /** The relationships of ExecuteScript. */
  datatype Relationship = Success | Failure

  function RelationshipName(r: Relationship): string
  {
    match r
    case Success => "success"
    case Failure => "failure"
  }

  /** A flow file: an identifier, its content and its attributes. */
  datatype FlowFile = FlowFile(id: nat, content: seq<byte>, attributes: map<string, string>)

  /** The script's decision for one result: the relationship it goes to. */
  datatype Transfer = Transfer(relationship: Relationship, flowFile: FlowFile)

  /** The user's script, seen from outside: given the flow file taken from
      the queue (None when the queue was empty) it produces the flow files
      it transfers, each to one relationship. */
  type Script = Option<FlowFile> -> seq<Transfer>

  /** What the runner holds between passes. */
  datatype RunnerState = RunnerState(
    queue: seq<FlowFile>,
    transferred: map<Relationship, seq<FlowFile>>,
    passes: nat)

  /** The flow files transferred to a relationship so far (empty if none). */
  function Listed(t: map<Relationship, seq<FlowFile>>, rel: Relationship): seq<FlowFile>
  {
    if rel in t then t[rel] else []
  }

  /** The flow files of a sequence of transfers that go to one
      relationship, in transfer order. */
  function Destined(transfers: seq<Transfer>, rel: Relationship): seq<FlowFile>
  {
    if transfers == [] then []
    else (if transfers[0].relationship == rel then [transfers[0].flowFile] else []) + Destined(transfers[1..], rel)
  }

  /** Dropping the last transfer drops its flow file from the end of its
      relationship's part, if it went there. */
  lemma {:induction false} DestinedSnoc(transfers: seq<Transfer>, rel: Relationship)
    requires transfers != []
    ensures var last := transfers[|transfers| - 1];
            Destined(transfers, rel) ==
            Destined(transfers[..|transfers| - 1], rel) + (if last.relationship == rel then [last.flowFile] else [])
  {
    var front := transfers[..|transfers| - 1];
    var last := transfers[|transfers| - 1];
    if front != [] {
      assert transfers[1..][..|transfers[1..]| - 1] == front[1..];
      DestinedSnoc(transfers[1..], rel);
      assert front[0] == transfers[0];
      AppendAssociative((if transfers[0].relationship == rel then [transfers[0].flowFile] else []),
                        Destined(front[1..], rel), (if last.relationship == rel then [last.flowFile] else []));
    } else {
      assert transfers[1..] == [];
    }
  }

  /** Records a sequence of transfers, in order, at the end of their lists. */
  function Route(t: map<Relationship, seq<FlowFile>>, transfers: seq<Transfer>): map<Relationship, seq<FlowFile>>
  {
    if transfers == [] then t
    else
      var before := Route(t, transfers[..|transfers| - 1]);
      var last := transfers[|transfers| - 1];
      before[last.relationship := Listed(before, last.relationship) + [last.flowFile]]
  }

  /** Recording transfers grows each relationship's list by exactly the flow
      files sent to it, in transfer order, after what it held before. */
  lemma {:induction false} RouteDelivers(t: map<Relationship, seq<FlowFile>>, transfers: seq<Transfer>)
    ensures Listed(Route(t, transfers), Success) == Listed(t, Success) + Destined(transfers, Success)
    ensures Listed(Route(t, transfers), Failure) == Listed(t, Failure) + Destined(transfers, Failure)
  {
    if transfers != [] {
      var front := transfers[..|transfers| - 1];
      var last := transfers[|transfers| - 1];
      RouteDelivers(t, front);
      DestinedSnoc(transfers, Success);
      DestinedSnoc(transfers, Failure);
      AppendAssociative(Listed(t, Success), Destined(front, Success),
                        (if last.relationship == Success then [last.flowFile] else []));
      AppendAssociative(Listed(t, Failure), Destined(front, Failure),
                        (if last.relationship == Failure then [last.flowFile] else []));
    }
  }

  /** One pass of the processor: take the head of the queue (if any), run the
      script on it and record its transfers. */
  function Pass(s: RunnerState, script: Script): RunnerState
  {
    if s.queue == [] then
      RunnerState([], Route(s.transferred, script(None)), s.passes + 1)
    else
      RunnerState(s.queue[1..], Route(s.transferred, script(Some(s.queue[0]))), s.passes + 1)
  }

  /** A pass counts itself, takes the head of the queue (nothing from an
      empty one) and appends what the script sends to each relationship. */
  lemma PassTakesHead(s: RunnerState, script: Script)
    ensures Pass(s, script).passes == s.passes + 1
    ensures Pass(s, script).queue == if s.queue == [] then [] else s.queue[1..]
    ensures var taken := if s.queue == [] then None else Some(s.queue[0]);
            var r := Pass(s, script).transferred;
            Listed(r, Success) == Listed(s.transferred, Success) + Destined(script(taken), Success) &&
            Listed(r, Failure) == Listed(s.transferred, Failure) + Destined(script(taken), Failure)
  {
    RouteDelivers(s.transferred, script(if s.queue == [] then None else Some(s.queue[0])));
  }

  /** n passes, one after another. */
  function RunPasses(s: RunnerState, n: nat, script: Script): RunnerState
  {
    if n == 0 then s else Pass(RunPasses(s, n - 1, script), script)
  }

  function Min(a: nat, b: nat): nat
  {
    if a <= b then a else b
  }

  /** n passes perform n script invocations and consume the first
      min(n, |queue|) flow files, in FIFO order. */
  lemma {:induction false} RunPassesConsumesInOrder(s: RunnerState, n: nat, script: Script)
    ensures RunPasses(s, n, script).passes == s.passes + n
    ensures RunPasses(s, n, script).queue == s.queue[Min(n, |s.queue|)..]
  {
    if n > 0 {
      RunPassesConsumesInOrder(s, n - 1, script);
    }
  }

  /** At least as many passes as queued flow files leave the queue empty. */
  lemma RunPassesDrains(s: RunnerState, n: nat, script: Script)
    requires n >= |s.queue|
    ensures RunPasses(s, n, script).queue == []
  {
    RunPassesConsumesInOrder(s, n, script);
  }

  /** A script that transfers every flow file it gets, unchanged, to success. */
  function AllToSuccess(input: Option<FlowFile>): seq<Transfer>
  {
    match input
    case Some(f) => [Transfer(Success, f)]
    case None => []
  }

  /** One pass of that script over a non-empty queue moves its head to success. */
  lemma AllToSuccessPass(before: RunnerState)
    requires before.queue != []
    ensures Listed(Pass(before, AllToSuccess).transferred, Success) == Listed(before.transferred, Success) + [before.queue[0]]
    ensures Listed(Pass(before, AllToSuccess).transferred, Failure) == Listed(before.transferred, Failure)
  {
    var f := before.queue[0];
    assert AllToSuccess(Some(f)) == [Transfer(Success, f)];
    RouteOne(before.transferred, Transfer(Success, f));
  }

  /** After m passes over a queue longer than m, the head is the m-th queued flow file. */
  lemma QueueHeadAfter(s: RunnerState, m: nat, script: Script)
    requires m < |s.queue|
    ensures RunPasses(s, m, script).queue != [] && RunPasses(s, m, script).queue[0] == s.queue[m]
  {
    RunPassesConsumesInOrder(s, m, script);
  }

  /** With that script, n passes over a queue of at least n flow files move
      exactly the first n of them, in order, to success and none to failure. */
  lemma {:induction false} AllToSuccessMovesPrefix(s: RunnerState, n: nat)
    requires n <= |s.queue|
    ensures Listed(RunPasses(s, n, AllToSuccess).transferred, Success) == Listed(s.transferred, Success) + s.queue[..n]
    ensures Listed(RunPasses(s, n, AllToSuccess).transferred, Failure) == Listed(s.transferred, Failure)
  {
    if n > 0 {
      var before := RunPasses(s, n - 1, AllToSuccess);
      AllToSuccessMovesPrefix(s, n - 1);
      QueueHeadAfter(s, n - 1, AllToSuccess);
      AllToSuccessPass(before);
      var after := RunPasses(s, n, AllToSuccess);
      assert after == Pass(before, AllToSuccess);
      AppendPrefixStep(Listed(s.transferred, Success), s.queue, n);
    } else {
      assert s.queue[..0] == [];
    }
  }

  /** Routing a single transfer appends its flow file to its relationship's list. */
  lemma RouteOne(t: map<Relationship, seq<FlowFile>>, transfer: Transfer)
    ensures Route(t, [transfer]) == t[transfer.relationship := Listed(t, transfer.relationship) + [transfer.flowFile]]
  {
    assert [transfer][..0] == [];
  }

  /** A script that maps every flow file it takes to exactly one result and
      does nothing on an empty queue. */
  ghost predicate OneToOne(script: Script)
  {
    script(None) == [] && forall f: FlowFile :: |script(Some(f))| == 1
  }

  /** The number of flow files in the success and failure lists together. */
  function Total(t: map<Relationship, seq<FlowFile>>): nat
  {
    |Listed(t, Success)| + |Listed(t, Failure)|
  }

  /** Recording transfers adds exactly one list entry per transfer. */
  lemma {:induction false} RouteAddsEach(t: map<Relationship, seq<FlowFile>>, transfers: seq<Transfer>)
    ensures Total(Route(t, transfers)) == Total(t) + |transfers|
  {
    if transfers != [] {
      var before := Route(t, transfers[..|transfers| - 1]);
      RouteAddsEach(t, transfers[..|transfers| - 1]);
      var last := transfers[|transfers| - 1];
      var after := before[last.relationship := Listed(before, last.relationship) + [last.flowFile]];
      if last.relationship == Success {
        assert Listed(after, Failure) == Listed(before, Failure);
      } else {
        assert Listed(after, Success) == Listed(before, Success);
      }
    }
  }

  /** With a one-to-one script nothing is lost or duplicated: queued plus
      transferred flow files stay as many as before, whatever the passes. */
  lemma {:induction false} OneToOneConserves(s: RunnerState, n: nat, script: Script)
    requires OneToOne(script)
    ensures |RunPasses(s, n, script).queue| + Total(RunPasses(s, n, script).transferred) ==
            |s.queue| + Total(s.transferred)
  {
    if n > 0 {
      OneToOneConserves(s, n - 1, script);
      var before := RunPasses(s, n - 1, script);
      if before.queue == [] {
        RouteAddsEach(before.transferred, script(None));
      } else {
        RouteAddsEach(before.transferred, script(Some(before.queue[0])));
      }
    }
  }

  /** The stand-in for TestRunner. */
  class Runner {
    var queue: seq<FlowFile>
    var transferred: map<Relationship, seq<FlowFile>>
    var passes: nat
    var nextId: nat
    var properties: map<string, string>

    function State(): RunnerState
      reads this
    {
      RunnerState(queue, transferred, passes)
    }

    /** A runner with nothing queued, transferred or configured. */
    constructor ()
      ensures State() == RunnerState([], map[], 0)
      ensures nextId == 0 && properties == map[]
    {
      queue, transferred, passes := [], map[], 0;
      nextId := 0;
      properties := map[];
    }

    /** TestRunner.setProperty. */
    method SetProperty(name: string, value: string)
      modifies this`properties
      ensures properties == old(properties)[name := value]
    {
      properties := properties[name := value];
    }

    /** TestRunner.enqueue: a new flow file at the tail of the queue, with a
        copy of the attributes as they are at this moment. */
    method Enqueue(content: seq<byte>, attributes: map<string, string>)
      modifies this`queue, this`nextId
      ensures queue == old(queue) + [FlowFile(old(nextId), content, attributes)]
      ensures nextId == old(nextId) + 1
    {
      queue := queue + [FlowFile(nextId, content, attributes)];
      nextId := nextId + 1;
    }

    /** TestRunner.run(iterations): that many passes of the processor. */
    method Run(iterations: nat, script: Script)
      modifies this`queue, this`transferred, this`passes
      ensures State() == RunPasses(old(State()), iterations, script)
    {
      var after := RunPasses(State(), iterations, script);
      queue, transferred, passes := after.queue, after.transferred, after.passes;
    }

    /** TestRunner.getFlowFilesForRelationship. */
    function FlowFilesForRelationship(rel: Relationship): seq<FlowFile>
      reads this
    {
      Listed(transferred, rel)
    }
  }
}
